/** handler/message.js: device classification, the datetime formatters, the
    first-match content chain with its idempotent insert into `messages`, and
    the three validators that append to `message_reactions` and
    `message_status`. */
module Message {
  import opened JsValues
  import opened JsDate
  import opened Envelope
  import opened Media
  import opened Store

  // ================================================================ device classification

  /** The characters a regular-expression `.` does not match. */
  predicate IsLineTerminator(c: char) {
    c == '\n' || c == '\r' || c == '\U{2028}' || c == '\U{2029}'
  }

  /** `s` matches `.{n}` exactly. */
  predicate AnyChars(s: string, n: nat) {
    |s| == n && forall i :: 0 <= i < |s| ==> !IsLineTerminator(s[i])
  }

  const DeviceTags: set<string> := {"iOS", "Web", "Android", "Desktop", "Unknown"}

  /** The regular-expression tests of `detectSenderDeviceType`, first match
      wins: `^3A.{18}$`, `^3E.{20}$`, `^(.{21}|.{32})$`, `^(3F|.{18}$)`. */
  function DetectDevice(id: string): (tag: string)
    ensures tag in DeviceTags
    ensures tag == "iOS" ==> |id| == 20 && id[..2] == "3A"
    ensures tag == "Web" ==> |id| == 22 && id[..2] == "3E"
    ensures tag == "Android" ==> |id| == 21 || |id| == 32
    ensures tag == "Desktop" ==> |id| == 18 || StartsWith(id, "3F")
    ensures tag == "Unknown" ==>
      (!StartsWith(id, "3F") && |id| != 21 && |id| != 32) || exists i :: 0 <= i < |id| && IsLineTerminator(id[i])
    ensures StartsWith(id, "3A") && AnyChars(id[2..], 18) ==> tag == "iOS"
    ensures StartsWith(id, "3E") && AnyChars(id[2..], 20) ==> tag == "Web"
    ensures AnyChars(id, 21) || AnyChars(id, 32) ==> tag == "Android"
    ensures AnyChars(id, 18) ==> tag == "Desktop"
    ensures StartsWith(id, "3F") && !AnyChars(id, 21) && !AnyChars(id, 32) ==> tag == "Desktop"
    ensures tag == "Unknown" <==>
      && !(StartsWith(id, "3A") && AnyChars(id[2..], 18))
      && !(StartsWith(id, "3E") && AnyChars(id[2..], 20))
      && !AnyChars(id, 21) && !AnyChars(id, 32)
      && !StartsWith(id, "3F") && !AnyChars(id, 18)
  {
    if StartsWith(id, "3A") && AnyChars(id[2..], 18) then "iOS"
    else if StartsWith(id, "3E") && AnyChars(id[2..], 20) then "Web"
    else if AnyChars(id, 21) || AnyChars(id, 32) then "Android"
    else if StartsWith(id, "3F") || AnyChars(id, 18) then "Desktop"
    else "Unknown"
  }

  /** `detectSenderDeviceType(message)`: a missing or empty id is tested as "". */
  function DetectSenderDeviceType(key: Option<MessageKey>): (tag: string)
    ensures !(key.Some? && Truthy(key.value.id)) ==> tag == "Unknown"
    ensures key.Some? && Truthy(key.value.id) ==> tag == DetectDevice(key.value.id.value)
  {
    DetectDevice(if key.Some? then OrDefault(key.value.id, "") else "")
  }

  /** Without line terminators, a "3F" prefix means Desktop unless the length
      already says Android (or iOS/Web, which need other prefixes). */
  lemma DesktopPrefix(id: string)
    requires StartsWith(id, "3F") && |id| != 21 && |id| != 32
    requires forall i :: 0 <= i < |id| ==> !IsLineTerminator(id[i])
    ensures DetectDevice(id) == "Desktop"
  {
    assert id[..2] == "3F";
    assert !StartsWith(id, "3A") && !StartsWith(id, "3E");
  }

  // ================================================================ datetime formatting

  /** `pad(n)`: `n < 10 ? '0' + n : n`, where NaN compares false. */
  function Pad(n: Number): string {
    match n
    case NaN => "NaN"
    case Finite(v) => if v < 10 then "0" + IntToString(v) else IntToString(v)
  }

  /** `n + 1` on a JavaScript number. */
  function Succ(n: Number): Number {
    match n
    case NaN => NaN
    case Finite(v) => Finite(v + 1)
  }

  /** `formatToMySQLDatetime(date)`: the year unpadded, the other fields padded
      to two digits; every field of the invalid date renders as NaN. */
  function FormatToMySqlDatetime(d: Date): (s: string)
    ensures d.Invalid? ==> s == "NaN-NaN-NaN NaN:NaN:NaN"
  {
    Layout(' ', NumberToString(GetFullYear(d)), Pad(Succ(GetMonth(d))), Pad(GetDate(d)),
           Pad(GetHours(d)), Pad(GetMinutes(d)), Pad(GetSeconds(d)))
  }

  /** The shape `YYYY-MM-DD HH:MM:SS`. */
  predicate IsMySqlDatetime(s: string) {
    && |s| == 19
    && AllDigits(s[0..4]) && s[4] == '-' && AllDigits(s[5..7]) && s[7] == '-' && AllDigits(s[8..10])
    && s[10] == ' ' && AllDigits(s[11..13]) && s[13] == ':' && AllDigits(s[14..16]) && s[16] == ':'
    && AllDigits(s[17..19])
  }

  /** Reads a `YYYY-MM-DD HH:MM:SS` text back into calendar fields. */
  function ParseDatetime(s: string): Civil
    requires IsMySqlDatetime(s)
  {
    Civil(ParseNat(s[0..4]), ParseNat(s[5..7]), ParseNat(s[8..10]),
          ParseNat(s[11..13]), ParseNat(s[14..16]), ParseNat(s[17..19]))
  }

  lemma LayoutSlices(sep: char, y: string, mo: string, d: string, h: string, mi: string, se: string)
    requires |y| == 4 && |mo| == 2 && |d| == 2 && |h| == 2 && |mi| == 2 && |se| == 2
    ensures var s := Layout(sep, y, mo, d, h, mi, se);
            && |s| == 19 && s[0..4] == y && s[4] == '-' && s[5..7] == mo && s[7] == '-'
            && s[8..10] == d && s[10] == sep && s[11..13] == h && s[13] == ':'
            && s[14..16] == mi && s[16] == ':' && s[17..19] == se
            && s[..10] == y + "-" + mo + "-" + d && s[11..] == h + ":" + mi + ":" + se
  {
  }

  /** A field below 100 pads to two digits that read back as the field. */
  lemma PadTwoDigits(n: nat)
    requires n < 100
    ensures |Pad(Finite(n))| == 2 && AllDigits(Pad(Finite(n))) && ParseNat(Pad(Finite(n))) == n
    ensures Pad(Finite(n)) == ZeroPad(n, 2)
  {
    if n < 10 {
      var s := Pad(Finite(n));
      assert s == "0" + [DigitChar(n)];
      assert s[..1] == "0";
      assert ParseNat("0") == 0 by { assert ("0")[..0] == ""; }
    } else {
      NatToStringLength(n, 2);
      ParseNatToString(n);
    }
  }

  lemma FourDigitYear(y: int)
    requires 1000 <= y <= 9999
    ensures NumberToString(Finite(y)) == NatToString(y) && |NatToString(y)| == 4
    ensures IsoYear(y) == NatToString(y)
  {
    assert Pow10(3) == 1000 && Pow10(4) == 10000;
    NatToStringLength(y, 4);
  }

  /** For a four-digit year the formatter's output has the `YYYY-MM-DD
      HH:MM:SS` shape and reads back as the date's own calendar fields
      (1-based month): nothing is lost or reordered. */
  lemma FormatRoundTrip(t: int)
    requires FromMs(t).Valid? && 1000 <= CivilOf(t).year <= 9999
    ensures IsMySqlDatetime(FormatToMySqlDatetime(FromMs(t)))
    ensures ParseDatetime(FormatToMySqlDatetime(FromMs(t))) == CivilOf(t)
  {
    var c := CivilOf(t);
    FourDigitYear(c.year);
    ParseNatToString(c.year);
    PadTwoDigits(c.month);
    PadTwoDigits(c.day);
    PadTwoDigits(c.hour);
    PadTwoDigits(c.minute);
    PadTwoDigits(c.second);
    LayoutSlices(' ', NatToString(c.year), Pad(Finite(c.month)), Pad(Finite(c.day)),
                 Pad(Finite(c.hour)), Pad(Finite(c.minute)), Pad(Finite(c.second)));
  }

  lemma DigitsHaveNoT(s: string)
    requires AllDigits(s)
    ensures 'T' !in s
  {
    assert forall i :: 0 <= i < |s| ==> s[i] != 'T';
  }

  /** Replacing the first 'T' of an ISO-style layout turns it into the
      space-separated one, since the date fields hold only digits. */
  lemma ReplaceSeparator(y: string, mo: string, d: string, h: string, mi: string, se: string)
    requires |y| == 4 && |mo| == 2 && |d| == 2 && |h| == 2 && |mi| == 2 && |se| == 2
    requires AllDigits(y) && AllDigits(mo) && AllDigits(d)
    ensures ReplaceFirst(Layout('T', y, mo, d, h, mi, se), 'T', ' ') == Layout(' ', y, mo, d, h, mi, se)
  {
    var p := Layout('T', y, mo, d, h, mi, se);
    LayoutSlices('T', y, mo, d, h, mi, se);
    LayoutSlices(' ', y, mo, d, h, mi, se);
    var a := y + "-" + mo + "-" + d;
    assert 'T' !in a by {
      DigitsHaveNoT(y);
      DigitsHaveNoT(mo);
      DigitsHaveNoT(d);
    }
    assert p[..10] == a && p[10] == 'T';
    var r := ReplaceFirst(p, 'T', ' ');
    assert 'T' in p;
    var i :| 0 <= i < |p| && p[i] == 'T' && 'T' !in p[..i] && r == p[..i] + [' '] + p[i + 1..];
    if i > 10 {
      assert p[..i][10] == 'T';
    }
  }

  /** The ISO-based conversion used for receipts and groups and the local
      formatter used for messages give the same text for four-digit years
      (local time being UTC here). */
  lemma IsoDatetimeAgreesWithFormatter(ts: int)
    requires FromSeconds(ts).Valid? && 1000 <= CivilOf(ts * MsPerSecond).year <= 9999
    ensures IsoDatetime(ts) == Some(FormatToMySqlDatetime(FromSeconds(ts)))
  {
    var c := CivilOf(ts * MsPerSecond);
    var y, mo, d, h, mi, se := NatToString(c.year), ZeroPad(c.month, 2), ZeroPad(c.day, 2),
                               ZeroPad(c.hour, 2), ZeroPad(c.minute, 2), ZeroPad(c.second, 2);
    IsoPrefix(ts);
    FormatterLayout(ts);
    FourDigitYear(c.year);
    PadTwoDigits(c.month);
    PadTwoDigits(c.day);
    PadTwoDigits(c.hour);
    PadTwoDigits(c.minute);
    PadTwoDigits(c.second);
    ReplaceSeparator(y, mo, d, h, mi, se);
  }

  /** The first 19 characters of the ISO string are the fields in layout,
      with a 'T' between date and time. */
  lemma IsoPrefix(ts: int)
    requires FromSeconds(ts).Valid? && 1000 <= CivilOf(ts * MsPerSecond).year <= 9999
    ensures var c := CivilOf(ts * MsPerSecond);
      Take(ToIsoString(FromSeconds(ts)).value, 19) ==
        Layout('T', NatToString(c.year), ZeroPad(c.month, 2), ZeroPad(c.day, 2),
               ZeroPad(c.hour, 2), ZeroPad(c.minute, 2), ZeroPad(c.second, 2))
  {
    var t := ts * MsPerSecond;
    var c := CivilOf(t);
    FourDigitYear(c.year);
    PadTwoDigits(c.month);
    PadTwoDigits(c.day);
    PadTwoDigits(c.hour);
    PadTwoDigits(c.minute);
    PadTwoDigits(c.second);
    var y, mo, d, h, mi, se := NatToString(c.year), ZeroPad(c.month, 2), ZeroPad(c.day, 2),
                               ZeroPad(c.hour, 2), ZeroPad(c.minute, 2), ZeroPad(c.second, 2);
    var p := Layout('T', y, mo, d, h, mi, se);
    LayoutSlices('T', y, mo, d, h, mi, se);
    PrefixOfConcat(p, ".", ZeroPad(t % MsPerSecond, 3) + "Z");
  }

  lemma PrefixOfConcat(p: string, a: string, b: string)
    ensures (p + a + b)[..|p|] == p
  {
  }

  /** The formatter lays out the same six fields, with a space. */
  lemma FormatterLayout(ts: int)
    requires FromSeconds(ts).Valid? && 1000 <= CivilOf(ts * MsPerSecond).year <= 9999
    ensures var c := CivilOf(ts * MsPerSecond);
      FormatToMySqlDatetime(FromSeconds(ts)) ==
        Layout(' ', NatToString(c.year), ZeroPad(c.month, 2), ZeroPad(c.day, 2),
               ZeroPad(c.hour, 2), ZeroPad(c.minute, 2), ZeroPad(c.second, 2))
  {
    var c := CivilOf(ts * MsPerSecond);
    FourDigitYear(c.year);
    PadTwoDigits(c.month);
    PadTwoDigits(c.day);
    PadTwoDigits(c.hour);
    PadTwoDigits(c.minute);
    PadTwoDigits(c.second);
  }

  /** `getFormattedTimestamp(timestamp)`: null for a falsy (0) or NaN input and
      for a time outside the `Date` range. */
  function GetFormattedTimestamp(ts: Option<Number>): (r: Option<string>)
    ensures r.Some? <==> ts.Some? && ts.value.Finite? && ts.value.v != 0 && FromSeconds(ts.value.v).Valid?
    ensures r.Some? ==> r.value == FormatToMySqlDatetime(Valid(ts.value.v * MsPerSecond))
    ensures ts == Some(Finite(0)) || ts == Some(NaN) ==> r.None?
  {
    if ts.None? || ts.value.NaN? || ts.value.v == 0 then None
    else
      var d := FromSeconds(ts.value.v);
      if d.Invalid? then None else Some(FormatToMySqlDatetime(d))
  }

  // ================================================================ content branches

  /** The branches of `handleIncomingMessage`'s if-chain. */
  datatype Branch = Conversation | ExtendedText | Image | Video | Audio | Document | Sticker | Location | ContactCard

  /** The order in which the chain tests the branches. */
  const Precedence: seq<Branch> :=
    [Conversation, ExtendedText, Image, Video, Audio, Document, Sticker, Location, ContactCard]

  /** The media type handed to `isMediaAvailable` by the five media branches. */
  function MediaType(b: Branch): string
    requires b in {Image, Video, Audio, Document, Sticker}
  {
    match b
    case Image => "image"
    case Video => "video"
    case Audio => "audio"
    case Document => "document"
    case Sticker => "sticker"
  }

  /** The test of one branch: its content key holds a truthy value, except
      the extended-text branch, which needs a truthy `text` inside it. */
  predicate Applies(b: Branch, c: Content) {
    match b
    case Conversation => IsTruthy(Get(c, "conversation"))
    case ExtendedText => Truthy(FieldsOf(Get(c, "extendedTextMessage")).text)
    case Image => IsTruthy(Get(c, "imageMessage"))
    case Video => IsTruthy(Get(c, "videoMessage"))
    case Audio => IsTruthy(Get(c, "audioMessage"))
    case Document => IsTruthy(Get(c, "documentMessage"))
    case Sticker => IsTruthy(Get(c, "stickerMessage"))
    case Location => IsTruthy(Get(c, "locationMessage"))
    case ContactCard => IsTruthy(Get(c, "contactMessage"))
  }

  /** The first branch of `bs` whose test holds. */
  function FirstApplicable(bs: seq<Branch>, c: Content): Option<Branch> {
    if |bs| == 0 then None
    else if Applies(bs[0], c) then Some(bs[0])
    else FirstApplicable(bs[1..], c)
  }

  /** `FirstApplicable` finds nothing exactly when no test holds, and otherwise
      a branch whose test holds while every earlier one fails. */
  lemma {:induction false} FirstApplicableSpec(bs: seq<Branch>, c: Content)
    ensures FirstApplicable(bs, c).None? <==> forall i :: 0 <= i < |bs| ==> !Applies(bs[i], c)
    ensures FirstApplicable(bs, c).Some? ==>
      exists i :: 0 <= i < |bs| && bs[i] == FirstApplicable(bs, c).value && Applies(bs[i], c)
                  && forall j :: 0 <= j < i ==> !Applies(bs[j], c)
    decreases |bs|
  {
    if |bs| > 0 && !Applies(bs[0], c) {
      FirstApplicableSpec(bs[1..], c);
      assert forall i :: 1 <= i < |bs| ==> bs[i] == bs[1..][i - 1];
      if FirstApplicable(bs, c).Some? {
        var k :| 0 <= k < |bs[1..]| && bs[1..][k] == FirstApplicable(bs, c).value && Applies(bs[1..][k], c)
                 && forall j :: 0 <= j < k ==> !Applies(bs[1..][j], c);
        assert bs[k + 1] == bs[1..][k];
        assert forall j :: 0 <= j < k + 1 ==> !Applies(bs[j], c) by {
          forall j | 0 <= j < k + 1 ensures !Applies(bs[j], c) {
            if j > 0 {
              assert bs[j] == bs[1..][j - 1];
            }
          }
        }
      }
    }
  }

  lemma FirstApplicableCons(b: Branch, rest: seq<Branch>, c: Content)
    ensures FirstApplicable([b] + rest, c) == if Applies(b, c) then Some(b) else FirstApplicable(rest, c)
  {
    assert ([b] + rest)[0] == b && ([b] + rest)[1..] == rest;
  }

  /** The branch `handleIncomingMessage`'s if-chain takes, in its own order. */
  function SelectBranch(message: Option<Content>): Option<Branch> {
    if message.None? then None
    else
      var c := message.value;
      if Applies(Conversation, c) then Some(Conversation)
      else if Applies(ExtendedText, c) then Some(ExtendedText)
      else if Applies(Image, c) then Some(Image)
      else if Applies(Video, c) then Some(Video)
      else if Applies(Audio, c) then Some(Audio)
      else if Applies(Document, c) then Some(Document)
      else if Applies(Sticker, c) then Some(Sticker)
      else if Applies(Location, c) then Some(Location)
      else if Applies(ContactCard, c) then Some(ContactCard)
      else None
  }

  /** Exactly one branch is taken, the first in `Precedence` whose test holds,
      and none when no test holds. */
  lemma SelectBranchFollowsPrecedence(c: Content)
    ensures SelectBranch(Some(c)) == FirstApplicable(Precedence, c)
    ensures SelectBranch(Some(c)).None? <==> forall i :: 0 <= i < |Precedence| ==> !Applies(Precedence[i], c)
    ensures SelectBranch(Some(c)).Some? ==>
      exists i :: 0 <= i < |Precedence| && Precedence[i] == SelectBranch(Some(c)).value
                  && Applies(Precedence[i], c) && forall j :: 0 <= j < i ==> !Applies(Precedence[j], c)
  {
    var p := Precedence;
    FirstApplicableCons(ContactCard, [], c);
    FirstApplicableCons(Location, [ContactCard], c);
    FirstApplicableCons(Sticker, [Location, ContactCard], c);
    FirstApplicableCons(Document, [Sticker, Location, ContactCard], c);
    FirstApplicableCons(Audio, [Document, Sticker, Location, ContactCard], c);
    FirstApplicableCons(Video, [Audio, Document, Sticker, Location, ContactCard], c);
    FirstApplicableCons(Image, [Video, Audio, Document, Sticker, Location, ContactCard], c);
    FirstApplicableCons(ExtendedText, [Image, Video, Audio, Document, Sticker, Location, ContactCard], c);
    FirstApplicableCons(Conversation, [ExtendedText, Image, Video, Audio, Document, Sticker, Location, ContactCard], c);
    FirstApplicableSpec(p, c);
  }

  /** What the chain leaves in `text`, `mediaPath`, … */
  datatype Resolved = Resolved(
    text: Option<string>,
    mediaPath: Option<string>,
    mediaCaption: Option<string>,
    mediaMimeType: Option<string>,
    mediaSize: Option<int>,
    mediaDuration: Option<int>,
    mediaWidth: Option<int>,
    mediaHeight: Option<int>)

  const Nothing := Resolved(None, None, None, None, None, None, None, None)

  function TextOnly(text: string): Resolved {
    Resolved(Some(text), None, None, None, None, None, None, None)
  }

  /** The record `handleMediaMessage` returns. */
  datatype MediaResult = MediaResult(
    text: string,
    mediaPath: Option<string>,
    mediaCaption: Option<string>,
    mediaMimeType: Option<string>,
    mediaSize: Option<int>,
    mediaDuration: Option<int>,
    mediaWidth: Option<int>,
    mediaHeight: Option<int>)

  /** The texts the media message line is built from. */
  const NotAvailable := " (media not available)"
  const CaptionLabel := "\nCaption: "

  /** The text `handleMediaMessage` composes from the descriptor and the save result. */
  function SavedPart(saved: Option<SavedFile>): string {
    if saved.Some? then ": " + saved.value.fileName else NotAvailable
  }

  function CaptionPart(caption: Option<string>): string {
    if Truthy(caption) then CaptionLabel + caption.value else ""
  }

  function MediaText(info: FileInfo, saved: Option<SavedFile>): string {
    Capitalize(info.kind) + SavedPart(saved) + CaptionPart(info.caption)
  }

  /** `handleMediaMessage(message, type)`: the descriptor comes from the first
      key of the content (not from `type`), and a failed save still yields a
      record, with no path. */
  function HandleMediaMessage(env: Envelope, io: Io): Option<MediaResult>
  {
    match GetMediaFileInfo(env.message)
    case None => None
    case Some(info) =>
      var saved := SaveMedia(env, info.kind, info.ext, io).AsOption();
      Some(MediaResult(
        MediaText(info, saved),
        if saved.Some? then Some(saved.value.relativePath) else None,
        OrNull(info.caption), OrNull(info.mimeType), IntOrNull(info.fileSize),
        IntOrNull(info.duration), IntOrNull(info.width), IntOrNull(info.height)))
  }

  /** A media record exists exactly when the content's first key is one of
      the six media keys with a truthy value. Its type is that key without
      "Message"; it has a path, under `media/<type>/`, exactly when the key
      has an id, the message of that type carries a download source and the
      download succeeds; its text opens with the capitalised type, followed
      by the file name or by " (media not available)". */
  lemma HandleMediaMessageFacts(env: Envelope, io: Io)
    ensures HandleMediaMessage(env, io).Some? <==>
      && env.message.Some? && |env.message.value| > 0
      && IsKnownMediaKey(env.message.value[0].0) && IsTruthy(Some(env.message.value[0].1))
    ensures HandleMediaMessage(env, io).Some? ==>
      && env.message.Some? && |env.message.value| > 0 && |env.message.value[0].0| >= 7
      && var key := env.message.value[0].0;
      && var kind := key[..|key| - 7];
      && var r := HandleMediaMessage(env, io).value;
      && (r.mediaPath.Some? <==>
            env.key.Some? && Truthy(env.key.value.id) && IsMediaAvailable(env.message, kind) && io.downloadOk)
      && (r.mediaPath.Some? ==> StartsWith(r.mediaPath.value, "media/" + kind + "/")
                                && StartsWith(r.text, Capitalize(kind) + ": " + kind + "_"))
      && (r.mediaPath.None? ==> StartsWith(r.text, Capitalize(kind) + NotAvailable))
  {
    var info := GetMediaFileInfo(env.message);
    if info.Some? {
      TypeOfKey(info.value.kind, env.message.value[0].0);
      var saved := SaveMedia(env, info.value.kind, info.value.ext, io);
      MediaTextOpening(info.value, saved.AsOption(), io.nowMs);
    }
  }

  /** The record's text opens with the capitalised type and then the saved
      file's name or the not-available note. */
  lemma MediaTextOpening(info: FileInfo, saved: Option<SavedFile>, nowMs: int)
    requires saved.Some? ==> saved.value.fileName == info.kind + "_" + IntToString(nowMs) + "." + info.ext
    ensures saved.Some? ==> StartsWith(MediaText(info, saved), Capitalize(info.kind) + ": " + info.kind + "_")
    ensures saved.None? ==> StartsWith(MediaText(info, saved), Capitalize(info.kind) + NotAvailable)
  {
    if saved.Some? {
      FileTextOpening(Capitalize(info.kind), info.kind, IntToString(nowMs) + "." + info.ext,
                      CaptionPart(info.caption));
    } else {
      StartsWithConcat(Capitalize(info.kind) + NotAvailable, CaptionPart(info.caption));
    }
  }

  lemma FileTextOpening(head: string, kind: string, rest: string, caption: string)
    ensures StartsWith(head + (": " + (kind + "_" + rest)) + caption, head + ": " + kind + "_")
  {
    var p := head + ": " + kind + "_";
    assert head + (": " + (kind + "_" + rest)) + caption == p + (rest + caption);
    StartsWithConcat(p, rest + caption);
  }

  /** A media type is its content key without the "Message" suffix. */
  lemma TypeOfKey(kind: string, key: string)
    requires kind + "Message" == key
    ensures |key| >= 7 && key[..|key| - 7] == kind
  {
    assert key[..|key| - 7] == (kind + "Message")[..|kind|];
  }

  lemma StartsWithConcat(a: string, b: string)
    ensures StartsWith(a + b, a)
  {
    assert (a + b)[..|a|] == a;
  }

  /** `b` holds every occurrence of its parts: a concatenation contains its middle. */
  lemma {:induction false} ContainsMiddle(a: string, b: string, c: string)
    ensures Contains(a + b + c, b)
    decreases |a|
  {
    if |a| == 0 {
      assert a + b + c == b + c;
      assert (b + c)[..|b|] == b;
    } else {
      assert (a + b + c)[1..] == a[1..] + b + c;
      ContainsMiddle(a[1..], b, c);
    }
  }

  /** The stored media text starts with the capitalised type and names the
      saved file, or says the media is not available. */
  lemma MediaTextMentions(info: FileInfo, saved: Option<SavedFile>)
    ensures StartsWith(MediaText(info, saved), Capitalize(info.kind))
    ensures saved.Some? ==> Contains(MediaText(info, saved), saved.value.fileName)
    ensures saved.None? ==> Contains(MediaText(info, saved), NotAvailable)
    ensures Truthy(info.caption) ==> Contains(MediaText(info, saved), info.caption.value)
  {
    var head, mid, tail := Capitalize(info.kind), SavedPart(saved), CaptionPart(info.caption);
    assert (head + mid + tail)[..|head|] == head;
    if saved.Some? {
      var name := saved.value.fileName;
      assert ": " + name == mid;
      assert head + ": " + name + tail == head + mid + tail;
      ContainsMiddle(head + ": ", name, tail);
    } else {
      ContainsMiddle(head, mid, tail);
    }
    if Truthy(info.caption) {
      var text := info.caption.value;
      assert CaptionLabel + text == tail;
      assert head + mid + CaptionLabel + text + "" == head + mid + tail;
      ContainsMiddle(head + mid + CaptionLabel, text, "");
    }
  }

  /** The placeholder for a media branch whose keys are missing: the
      capitalised type and " (media not available)", as in "Image (media not
      available)". */
  function Placeholder(t: string): string {
    Capitalize(t) + NotAvailable
  }

  /** The fields a media branch copies from the `handleMediaMessage` record. */
  function CopyMedia(b: Branch, m: MediaResult): Resolved
    requires b in {Image, Video, Audio, Document, Sticker}
  {
    Resolved(
      Some(m.text), m.mediaPath,
      if b in {Image, Video} then m.mediaCaption else None,
      m.mediaMimeType,
      if b == Document then m.mediaSize else None,
      if b in {Video, Audio} then m.mediaDuration else None,
      if b == Image then m.mediaWidth else None,
      if b == Image then m.mediaHeight else None)
  }

  /** What one branch leaves in the chain's variables. */
  function BranchContent(b: Branch, env: Envelope, io: Io): Resolved
    requires env.message.Some? && Applies(b, env.message.value)
  {
    var c := env.message.value;
    match b
    case Conversation => TextOnly(ValueText(Get(c, "conversation").value))
    case ExtendedText => TextOnly(FieldsOf(Get(c, "extendedTextMessage")).text.value)
    case Location =>
      var loc := FieldsOf(Get(c, "locationMessage"));
      if TruthyNumeral(loc.degreesLatitude) && TruthyNumeral(loc.degreesLongitude) then
        TextOnly("Location: " + loc.degreesLatitude.value + ", " + loc.degreesLongitude.value)
      else Nothing
    case ContactCard =>
      var card := SaveContactVCard(FieldsOf(Get(c, "contactMessage")), io);
      if card.None? then Nothing
      else Resolved(Some("Contact: " + card.value.fileName), Some(card.value.relativePath),
                    None, None, None, None, None, None)
    case _ =>
      if !IsMediaAvailable(env.message, MediaType(b)) then TextOnly(Placeholder(MediaType(b)))
      else
        var m := HandleMediaMessage(env, io);
        if m.None? then Nothing else CopyMedia(b, m.value)
  }

  /** The chain as a whole: the selected branch's content, or nothing. */
  function Resolve(env: Envelope, io: Io): Resolved {
    match SelectBranch(env.message)
    case None => Nothing
    case Some(b) => BranchContent(b, env, io)
  }

  /** A media branch without media keys stores its placeholder and never
      reaches `handleMediaMessage`. */
  lemma PlaceholderWhenUnavailable(env: Envelope, io: Io)
    requires SelectBranch(env.message).Some?
    requires SelectBranch(env.message).value in {Image, Video, Audio, Document, Sticker}
    requires !IsMediaAvailable(env.message, MediaType(SelectBranch(env.message).value))
    ensures Resolve(env, io) == TextOnly(Placeholder(MediaType(SelectBranch(env.message).value)))
    ensures Resolve(env, io) == Resolve(env, io.(downloadOk := !io.downloadOk))
  {
  }

  /** A location text appears only when both coordinates are truthy. */
  lemma LocationNeedsBothCoordinates(env: Envelope, io: Io)
    requires SelectBranch(env.message) == Some(Location)
    ensures Resolve(env, io).text.Some? <==>
      var loc := FieldsOf(Get(env.message.value, "locationMessage"));
      TruthyNumeral(loc.degreesLatitude) && TruthyNumeral(loc.degreesLongitude)
  {
  }

  /** Whatever branch is taken, a resolved text is never empty, and no text
      is resolved when no branch applies. */
  lemma ResolvedTextTruthy(env: Envelope, io: Io)
    ensures Resolve(env, io).text.Some? ==> SelectBranch(env.message).Some? && Resolve(env, io).text.value != ""
  {
    match SelectBranch(env.message)
    case None =>
    case Some(b) =>
      var c := env.message.value;
      var r := FirstApplicable(Precedence, c);
      assert Applies(b, c);
      if b == Conversation {
        assert IsTruthy(Get(c, "conversation"));
      } else if b in {Image, Video, Audio, Document, Sticker} {
        var t := MediaType(b);
        assert |Placeholder(t)| > 0;
        match HandleMediaMessage(env, io)
        case None =>
        case Some(m) =>
          var info := GetMediaFileInfo(env.message).value;
          assert |MediaText(info, SaveMedia(env, info.kind, info.ext, io).AsOption())| > 0;
      }
  }

  /** `handleMediaMessage` follows the first key while the chain follows the
      named keys: an image whose content lists another key first is resolved
      to nothing, although its media keys are present. */
  lemma FirstKeyDisagreement(io: Io)
    ensures var image := NoFields.(mediaKey := true);
            var env := Envelope(Some(MessageKey(Some("3A0123456789ABCDEF01"), false, Some("x@s.whatsapp.net"), None)),
                                Some([("messageContextInfo", Obj(NoFields)), ("imageMessage", Obj(image))]),
                                Some(Plain(1)), None);
            && SelectBranch(env.message) == Some(Image)
            && IsMediaAvailable(env.message, "image")
            && GetMediaFileInfo(env.message).None?
            && Resolve(env, io) == Nothing
  {
    var image := NoFields.(mediaKey := true);
    var c: Content := [("messageContextInfo", Obj(NoFields)), ("imageMessage", Obj(image))];
    assert c[1..] == [("imageMessage", Obj(image))] && c[1..][1..] == [];
    assert "messageContextInfo"[0] != "conversation"[0] && "imageMessage"[0] != "conversation"[0];
    assert "messageContextInfo"[0] != "extendedTextMessage"[0] && "imageMessage"[0] != "extendedTextMessage"[0];
    assert "messageContextInfo"[0] != "imageMessage"[0];
    assert Get(c[1..], "conversation") == None;
    assert Get(c, "conversation") == None;
    assert Get(c[1..], "extendedTextMessage") == None;
    assert Get(c, "extendedTextMessage") == None;
    assert Get(c, "imageMessage") == Some(Obj(image));
    assert Get(c, "messageContextInfo") == Some(Obj(NoFields));
  }

  // ================================================================ the stored message row

  /** `senderName`: the account's name for own messages, the push name otherwise. */
  function SenderName(fromMe: bool, sock: Option<SockUser>, pushName: Option<string>): (r: string)
    ensures r != ""
    ensures !fromMe ==> r == OrDefault(pushName, "Tidak diketahui")
    ensures fromMe && sock.Some? ==> r == OrDefault(Or(sock.value.name, sock.value.verifiedName), "Me")
    ensures fromMe && sock.None? ==> r == "Me"
  {
    if fromMe then
      if sock.Some? then OrDefault(Or(sock.value.name, sock.value.verifiedName), "Me") else "Me"
    else OrDefault(pushName, "Tidak diketahui")
  }

  /** `Object.keys(message.message || {})[0] || "unknown"`. */
  function MessageType(message: Option<Content>): (r: string)
    ensures r != ""
    ensures message.Some? && |message.value| > 0 && message.value[0].0 != "" ==> r == message.value[0].0
    ensures !(message.Some? && |message.value| > 0 && message.value[0].0 != "") ==> r == "unknown"
  {
    if message.None? || |message.value| == 0 || message.value[0].0 == "" then "unknown"
    else message.value[0].0
  }

  /** `message.messageTimestamp || Date.now()`, in the unit the formatter
      multiplies by 1000. */
  function TimestampOrNow(ts: Option<NumField>, nowMs: int): int {
    if ts.Some? && ts.value.IsTruthy() then ts.value.n else nowMs
  }

  /** `extendedTextMessage.contextInfo`, if any. */
  function Context(message: Option<Content>): Option<ContextInfo> {
    if message.None? then None else FieldsOf(Get(message.value, "extendedTextMessage")).contextInfo
  }

  /** The row `handleIncomingMessage` inserts, or `None` when it inserts
      nothing: no key (reading `key.fromMe` throws), no text, or a null id. */
  function IncomingRow(env: Envelope, sock: Option<SockUser>, io: Io): (r: Option<MessageRow>)
    ensures r.Some? <==> env.key.Some? && env.key.value.id.Some? && Resolve(env, io).text.Some?
    ensures r.Some? ==> r.value.messageId == env.key.value.id.value && r.value.text == Resolve(env, io).text.value
  {
    if env.key.None? then None
    else
      var k := env.key.value;
      var res := Resolve(env, io);
      if res.text.None? || k.id.None? then None
      else
        var ctx := Context(env.message);
        Some(MessageRow(
          k.id.value,
          SenderName(k.fromMe, sock, env.pushName),
          OrDefault(k.remoteJid, "unknown"),
          res.text.value,
          MessageType(env.message),
          FormatToMySqlDatetime(FromMs(TimestampOrNow(env.messageTimestamp, io.nowMs) * MsPerSecond)),
          DetectSenderDeviceType(env.key),
          res.mediaPath, res.mediaCaption, res.mediaMimeType, res.mediaSize, res.mediaDuration,
          res.mediaWidth, res.mediaHeight,
          if ctx.Some? then OrNull(ctx.value.stanzaId) else None,
          ctx.Some? && ctx.value.isForwarded,
          k.fromMe))
  }

  /** An insert into a table keyed by message id: kept out when the id is taken. */
  function InsertIfAbsent(messages: map<string, MessageRow>, row: Option<MessageRow>): (m: map<string, MessageRow>)
    ensures messages.Keys <= m.Keys
    ensures forall id :: id in messages ==> m[id] == messages[id]
    ensures forall id :: id in m && id !in messages ==> row.Some? && row.value.messageId == id
    ensures |m| <= |messages| + 1
    ensures row.Some? && row.value.messageId !in messages ==> m == messages[row.value.messageId := row.value]
    ensures row.None? || row.value.messageId in messages ==> m == messages
  {
    match row
    case None => messages
    case Some(r) =>
      if r.messageId in messages then messages
      else
        assert messages[r.messageId := r].Keys == messages.Keys + {r.messageId};
        messages[r.messageId := r]
  }

  /** The `messages` table after one envelope: the row is inserted only when
      its id is absent. */
  function IncomingMessages(messages: map<string, MessageRow>, env: Envelope, sock: Option<SockUser>, io: Io)
    : map<string, MessageRow>
  {
    InsertIfAbsent(messages, IncomingRow(env, sock, io))
  }

  /** The envelope carries an id and yields a text, and its id is not stored yet. */
  predicate IsNewMessage(messages: map<string, MessageRow>, env: Envelope, io: Io) {
    env.key.Some? && env.key.value.id.Some? && Resolve(env, io).text.Some? && env.key.value.id.value !in messages
  }

  /** A new message adds exactly one row, its own, carrying its text; any
      other envelope changes nothing. */
  lemma FreshMessageStored(messages: map<string, MessageRow>, env: Envelope, sock: Option<SockUser>, io: Io)
    ensures IsNewMessage(messages, env, io) ==>
      && IncomingMessages(messages, env, sock, io) == messages[env.key.value.id.value := IncomingRow(env, sock, io).value]
      && |IncomingMessages(messages, env, sock, io)| == |messages| + 1
      && IncomingMessages(messages, env, sock, io)[env.key.value.id.value].text == Resolve(env, io).text.value
    ensures !IsNewMessage(messages, env, io) ==> IncomingMessages(messages, env, sock, io) == messages
  {
  }

  /** A stored message is never overwritten, whatever arrives later. */
  lemma FirstSeenPreserved(messages: map<string, MessageRow>, env: Envelope, sock: Option<SockUser>, io: Io, id: string)
    requires id in messages
    ensures id in IncomingMessages(messages, env, sock, io)
    ensures IncomingMessages(messages, env, sock, io)[id] == messages[id]
  {
  }

  /** Only the envelope's own id can appear, and the table grows by at most one row. */
  lemma OnlyOwnIdAdded(messages: map<string, MessageRow>, env: Envelope, sock: Option<SockUser>, io: Io)
    ensures messages.Keys <= IncomingMessages(messages, env, sock, io).Keys
    ensures forall id :: id in IncomingMessages(messages, env, sock, io) && id !in messages ==>
              env.key.Some? && env.key.value.id == Some(id)
    ensures |IncomingMessages(messages, env, sock, io)| <= |messages| + 1
  {
    var row := IncomingRow(env, sock, io);
    assert row.Some? ==> row.value.messageId == env.key.value.id.value;
  }

  /** Replaying an envelope leaves one row: a second delivery changes nothing,
      with any collaborator answers once the first inserted. */
  lemma ReplayIsIdempotent(messages: map<string, MessageRow>, env: Envelope, sock: Option<SockUser>, io: Io, io2: Io)
    ensures var once := IncomingMessages(messages, env, sock, io);
            IncomingMessages(once, env, sock, io) == once
    ensures var once := IncomingMessages(messages, env, sock, io);
            IncomingRow(env, sock, io).Some? ==> IncomingMessages(once, env, sock, io2) == once
  {
  }

  /** The if-chain of `handleIncomingMessage` over the content types: it
      leaves in its variables what the selected branch resolves. */
  method ResolveContent(env: Envelope, io: Io) returns (res: Resolved)
    ensures res == Resolve(env, io)
  {
    var c: Content := if env.message.Some? then env.message.value else [];
    var text: Option<string> := None;
    var mediaPath: Option<string> := None;
    var mediaCaption: Option<string> := None;
    var mediaMimeType: Option<string> := None;
    var mediaSize: Option<int> := None;
    var mediaDuration: Option<int> := None;
    var mediaWidth: Option<int> := None;
    var mediaHeight: Option<int> := None;

    if env.message.Some? && IsTruthy(Get(c, "conversation")) {
      assert SelectBranch(env.message) == Some(Conversation);
      text := Some(ValueText(Get(c, "conversation").value));
    } else if env.message.Some? && Truthy(FieldsOf(Get(c, "extendedTextMessage")).text) {
      assert SelectBranch(env.message) == Some(ExtendedText);
      text := FieldsOf(Get(c, "extendedTextMessage")).text;
    } else if env.message.Some? && IsTruthy(Get(c, "imageMessage")) {
      assert SelectBranch(env.message) == Some(Image);
      if IsMediaAvailable(env.message, "image") {
        var m := HandleMediaMessage(env, io);
        if m.Some? {
          text := Some(m.value.text);
          mediaPath := m.value.mediaPath;
          mediaCaption := m.value.mediaCaption;
          mediaMimeType := m.value.mediaMimeType;
          mediaWidth := m.value.mediaWidth;
          mediaHeight := m.value.mediaHeight;
        }
      } else {
        text := Some(Placeholder("image"));
      }
    } else if env.message.Some? && IsTruthy(Get(c, "videoMessage")) {
      assert SelectBranch(env.message) == Some(Video);
      if IsMediaAvailable(env.message, "video") {
        var m := HandleMediaMessage(env, io);
        if m.Some? {
          text := Some(m.value.text);
          mediaPath := m.value.mediaPath;
          mediaCaption := m.value.mediaCaption;
          mediaMimeType := m.value.mediaMimeType;
          mediaDuration := m.value.mediaDuration;
        }
      } else {
        text := Some(Placeholder("video"));
      }
    } else if env.message.Some? && IsTruthy(Get(c, "audioMessage")) {
      assert SelectBranch(env.message) == Some(Audio);
      if IsMediaAvailable(env.message, "audio") {
        var m := HandleMediaMessage(env, io);
        if m.Some? {
          text := Some(m.value.text);
          mediaPath := m.value.mediaPath;
          mediaMimeType := m.value.mediaMimeType;
          mediaDuration := m.value.mediaDuration;
        }
      } else {
        text := Some(Placeholder("audio"));
      }
    } else if env.message.Some? && IsTruthy(Get(c, "documentMessage")) {
      assert SelectBranch(env.message) == Some(Document);
      if IsMediaAvailable(env.message, "document") {
        var m := HandleMediaMessage(env, io);
        if m.Some? {
          text := Some(m.value.text);
          mediaPath := m.value.mediaPath;
          mediaMimeType := m.value.mediaMimeType;
          mediaSize := m.value.mediaSize;
        }
      } else {
        text := Some(Placeholder("document"));
      }
    } else if env.message.Some? && IsTruthy(Get(c, "stickerMessage")) {
      assert SelectBranch(env.message) == Some(Sticker);
      if IsMediaAvailable(env.message, "sticker") {
        var m := HandleMediaMessage(env, io);
        if m.Some? {
          text := Some(m.value.text);
          mediaPath := m.value.mediaPath;
          mediaMimeType := m.value.mediaMimeType;
        }
      } else {
        text := Some(Placeholder("sticker"));
      }
    } else if env.message.Some? && IsTruthy(Get(c, "locationMessage")) {
      assert SelectBranch(env.message) == Some(Location);
      var loc := FieldsOf(Get(c, "locationMessage"));
      if TruthyNumeral(loc.degreesLatitude) && TruthyNumeral(loc.degreesLongitude) {
        text := Some("Location: " + loc.degreesLatitude.value + ", " + loc.degreesLongitude.value);
      }
    } else if env.message.Some? && IsTruthy(Get(c, "contactMessage")) {
      assert SelectBranch(env.message) == Some(ContactCard);
      var info := SaveContactVCard(FieldsOf(Get(c, "contactMessage")), io);
      if info.Some? {
        text := Some("Contact: " + info.value.fileName);
        mediaPath := Some(info.value.relativePath);
      }
    }

    res := Resolved(text, mediaPath, mediaCaption, mediaMimeType, mediaSize, mediaDuration, mediaWidth,
                    mediaHeight);
  }

  /** `handleIncomingMessage(message, sock)`: the content chain, then the
      existence check and the insert. */
  method HandleIncomingMessage(db: Database, env: Envelope, sock: Option<SockUser>, io: Io)
    requires db.Valid()
    modifies db`messages
    ensures db.Valid()
    ensures db.messages == IncomingMessages(old(db.messages), env, sock, io)
  {
    if env.key.None? {
      return;  // `message.key.fromMe` throws; the handler's catch logs it
    }
    var key := env.key.value;
    var res := ResolveContent(env, io);
    if res.text.Some? {
      var found := db.MessageExists(key.id, io.existsQueryFails);
      if found {
        return;  // duplicate: skipped
      }
      if key.id.None? {
        return;  // a null id is rejected by the key column; the error is caught
      }
      var row := IncomingRow(env, sock, io).value;
      var ok := db.InsertMessage(row);  // a duplicate key is caught and logged
    }
  }

  // ================================================================ reactions

  /** The reaction object `handleReactionUpdate` receives, with every field
      name it tries. */
  datatype Reaction = Reaction(
    key: Option<MessageKey>,
    text: Option<string>,
    reaction: Option<string>,
    emoji: Option<string>,
    timestamp: Option<NumField>,
    senderTimestampMs: Option<NumField>,
    reactionTimestamp: Option<NumField>,
    timestampMs: Option<NumField>,
    from: Option<string>)

  /** Why a reaction is dropped, in the order the handler checks. */
  datatype ReactionIssue = NoReaction | NoKey | NoMessageId | NoText | NoTimestamp | NoParticipant

  datatype Checked = Rejected(issue: ReactionIssue) | Accepted(row: ReactionRow)

  /** The first truthy numeric field, unwrapped (`toNumber()` of a `Long`). */
  function FirstTruthyNumber(fields: seq<Option<NumField>>): (r: Option<int>)
    ensures r.None? <==> forall i :: 0 <= i < |fields| ==> !(fields[i].Some? && fields[i].value.IsTruthy())
    ensures r.Some? ==> exists i :: 0 <= i < |fields| && fields[i].Some? && fields[i].value.IsTruthy()
                                   && fields[i].value.n == r.value
                                   && forall j :: 0 <= j < i ==> !(fields[j].Some? && fields[j].value.IsTruthy())
  {
    if |fields| == 0 then None
    else if fields[0].Some? && fields[0].value.IsTruthy() then Some(fields[0].value.n)
    else
      var r := FirstTruthyNumber(fields[1..]);
      assert forall i :: 1 <= i < |fields| ==> fields[i] == fields[1..][i - 1];
      assert r.Some? ==> exists i :: 1 <= i < |fields| && fields[i].Some? && fields[i].value.IsTruthy()
                                     && fields[i].value.n == r.value
                                     && forall j :: 0 <= j < i ==> !(fields[j].Some? && fields[j].value.IsTruthy()) by {
        if r.Some? {
          var k :| 0 <= k < |fields[1..]| && fields[1..][k].Some? && fields[1..][k].value.IsTruthy()
                   && fields[1..][k].value.n == r.value
                   && forall j :: 0 <= j < k ==> !(fields[1..][j].Some? && fields[1..][j].value.IsTruthy());
          assert fields[k + 1] == fields[1..][k];
          forall j | 0 <= j < k + 1 ensures !(fields[j].Some? && fields[j].value.IsTruthy()) {
            if j > 0 {
              assert fields[j] == fields[1..][j - 1];
            }
          }
        }
      }
      r
  }

  /** The threshold above which a reaction timestamp is taken to be in milliseconds. */
  const MillisecondThreshold := 10_000_000_000

  /** `timestamp > 10000000000 ? Math.floor(timestamp / 1000) : timestamp`:
      the result is in seconds either way. */
  function ToSeconds(t: int): (r: int)
    ensures t > MillisecondThreshold ==> r * 1000 <= t < r * 1000 + 1000
    ensures t <= MillisecondThreshold ==> r == t
    ensures r <= t
  {
    if t > MillisecondThreshold then t / 1000 else t
  }

  predicate HasTextField(r: Reaction) {
    Truthy(Or(Or(r.text, r.reaction), r.emoji))
  }

  function TimestampFields(r: Reaction): seq<Option<NumField>> {
    [r.timestamp, r.senderTimestampMs, r.reactionTimestamp, r.timestampMs]
  }

  function ParticipantOf(r: Reaction): Option<string>
    requires r.key.Some?
  {
    Or(Or(r.key.value.participant, r.key.value.remoteJid), r.from)
  }

  /** What `handleReactionUpdate` makes of a reaction: the first missing item
      in its validation order, or the row it inserts. */
  function CheckReaction(reaction: Option<Reaction>): (c: Checked)
    ensures c.Accepted? <==>
      reaction.Some? && reaction.value.key.Some? && Truthy(reaction.value.key.value.id)
      && HasTextField(reaction.value) && FirstTruthyNumber(TimestampFields(reaction.value)).Some?
      && Truthy(ParticipantOf(reaction.value))
    ensures c == Rejected(NoReaction) <==> reaction.None?
    ensures c == Rejected(NoKey) <==> reaction.Some? && reaction.value.key.None?
    ensures c == Rejected(NoMessageId) <==>
      reaction.Some? && reaction.value.key.Some? && !Truthy(reaction.value.key.value.id)
    ensures c == Rejected(NoText) ==> reaction.Some? && reaction.value.key.Some? && Truthy(reaction.value.key.value.id)
    ensures c == Rejected(NoTimestamp) ==> reaction.Some? && reaction.value.key.Some? && Truthy(reaction.value.key.value.id) && HasTextField(reaction.value)
    ensures c == Rejected(NoParticipant) ==>
      reaction.Some? && reaction.value.key.Some? && Truthy(reaction.value.key.value.id) && HasTextField(reaction.value) && FirstTruthyNumber(TimestampFields(reaction.value)).Some?
    ensures c.Accepted? ==>
      var r := reaction.value;
      var ts := FirstTruthyNumber(TimestampFields(r)).value;
      && c.row.messageId == r.key.value.id.value
      && c.row.fromJid == ParticipantOf(r).value
      && c.row.reactionText == Or(Or(r.text, r.reaction), r.emoji).value
      && c.row.timestamp == FormatToMySqlDatetime(FromSeconds(ToSeconds(ts)))
  {
    if reaction.None? then Rejected(NoReaction)
    else
      var r := reaction.value;
      if r.key.None? then Rejected(NoKey)
      else if !Truthy(r.key.value.id) then Rejected(NoMessageId)
      else if !HasTextField(r) then Rejected(NoText)
      else
        match FirstTruthyNumber(TimestampFields(r))
        case None => Rejected(NoTimestamp)
        case Some(ts) =>
          if !Truthy(ParticipantOf(r)) then Rejected(NoParticipant)
          else Accepted(ReactionRow(r.key.value.id.value, ParticipantOf(r).value,
                                    Or(Or(r.text, r.reaction), r.emoji).value,
                                    FormatToMySqlDatetime(FromSeconds(ToSeconds(ts)))))
  }

  /** An empty reaction text (a removal) is dropped like a missing one. */
  lemma EmptyReactionDropped(reaction: Reaction)
    requires reaction.key.Some? && Truthy(reaction.key.value.id)
    requires reaction.text == Some("") && reaction.reaction.None? && reaction.emoji.None?
    ensures CheckReaction(Some(reaction)) == Rejected(NoText)
  {
  }

  /** `handleReactionUpdate(reaction)`: validate, convert the timestamp, append. */
  method HandleReactionUpdate(db: Database, reaction: Option<Reaction>)
    modifies db`reactions
    ensures db.reactions == old(db.reactions) + match CheckReaction(reaction)
                                                 case Accepted(row) => [row]
                                                 case Rejected(_) => []
  {
    if reaction.None? {
      return;
    }
    var r := reaction.value;
    if r.key.None? || !Truthy(r.key.value.id) {
      return;
    }
    var reactionText := Or(Or(r.text, r.reaction), r.emoji);
    if !Truthy(reactionText) {
      return;
    }
    var first := FirstTruthyNumber(TimestampFields(r));
    if first.None? {
      return;
    }
    var timestamp := first.value;
    if timestamp > MillisecondThreshold {
      timestamp := timestamp / 1000;
    }
    var participantJid := Or(Or(r.key.value.participant, r.key.value.remoteJid), r.from);
    if !Truthy(participantJid) {
      return;
    }
    var formattedTime := FormatToMySqlDatetime(FromMs(timestamp * MsPerSecond));
    db.InsertReaction(ReactionRow(r.key.value.id.value, participantJid.value, reactionText.value, formattedTime));
  }

  // ================================================================ receipts

  /** `update.receipt`. */
  datatype Receipt = Receipt(
    rtype: Option<string>,
    readTimestamp: Option<NumField>,
    receiptTimestamp: Option<NumField>,
    userJid: Option<string>,
    participantJid: Option<string>)

  /** A receipt update: `{key, receipt}`. */
  datatype ReceiptUpdate = ReceiptUpdate(key: Option<MessageKey>, receipt: Option<Receipt>)

  /** The status tag for a receipt type. */
  function StatusTag(rtype: Option<string>): (s: string)
    ensures s in {"read", "delivered", "sent", "failed", "unknown"}
    ensures 4 <= |s| <= 9
    ensures s == "unknown" <==> rtype !in {Some("read"), Some("delivery"), Some("sent"), Some("error")}
    ensures rtype == Some("read") ==> s == "read"
    ensures rtype == Some("delivery") ==> s == "delivered"
    ensures rtype == Some("sent") ==> s == "sent"
    ensures rtype == Some("error") ==> s == "failed"
  {
    if rtype == Some("read") then "read"
    else if rtype == Some("delivery") then "delivered"
    else if rtype == Some("sent") then "sent"
    else if rtype == Some("error") then "failed"
    else "unknown"
  }

  /** The ">20 characters" guard of the status handler never fires, and a
      10-character truncation leaves every tag unchanged. */
  lemma StatusGuardNeverFires(rtype: Option<string>)
    ensures !(|StatusTag(rtype)| > 20)
    ensures Take(StatusTag(rtype), 10) == StatusTag(rtype)
  {
  }

  /** readTimestamp first, then receiptTimestamp, through the ISO conversion. */
  function ReceiptStamp(receipt: Option<Receipt>): (r: Stamp)
    ensures r.NullStamp? <==>
      receipt.None? || FirstTruthyNumber([receipt.value.readTimestamp, receipt.value.receiptTimestamp]).None?
    ensures r.Stamp? ==>
      IsoDatetime(FirstTruthyNumber([receipt.value.readTimestamp, receipt.value.receiptTimestamp]).value)
        == Some(r.text)
    ensures r.RangeError? <==>
      && receipt.Some? && FirstTruthyNumber([receipt.value.readTimestamp, receipt.value.receiptTimestamp]).Some?
      && FromSeconds(FirstTruthyNumber([receipt.value.readTimestamp, receipt.value.receiptTimestamp]).value).Invalid?
  {
    if receipt.None? then NullStamp
    else
      match FirstTruthyNumber([receipt.value.readTimestamp, receipt.value.receiptTimestamp])
      case None => NullStamp
      case Some(ts) => IsoStamp(ts)
  }

  /** The rows `handleMessageStatusUpdate` appends to `message_status`. */
  function StatusRows(messages: map<string, MessageRow>, width: nat, u: ReceiptUpdate, queryFails: bool)
    : (rows: seq<StatusRow>)
    ensures |rows| <= 1
    ensures |rows| == 1 ==>
      && u.key.Some? && Truthy(u.key.value.id) && !queryFails && u.key.value.id.value in messages
      && rows[0].messageId == u.key.value.id.value && rows[0].toJid == u.key.value.remoteJid
      && rows[0].status == StatusTag(if u.receipt.Some? then u.receipt.value.rtype else None)
      && |rows[0].status| <= width
      && !ReceiptStamp(u.receipt).RangeError? && rows[0].timestamp == StampValue(ReceiptStamp(u.receipt))
    ensures ReceiptStamp(u.receipt).RangeError? ==> rows == []
    ensures
      && u.key.Some? && Truthy(u.key.value.id) && !queryFails && u.key.value.id.value in messages
      && !ReceiptStamp(u.receipt).RangeError?
      && |StatusTag(if u.receipt.Some? then u.receipt.value.rtype else None)| <= width
      ==> rows == [StatusRow(u.key.value.id.value, u.key.value.remoteJid,
                             StatusTag(if u.receipt.Some? then u.receipt.value.rtype else None),
                             StampValue(ReceiptStamp(u.receipt)))]
  {
    if u.key.None? || !Truthy(u.key.value.id) then []
    else
      var id := u.key.value.id.value;
      if queryFails || id !in messages then []
      else
        var status := StatusTag(if u.receipt.Some? then u.receipt.value.rtype else None);
        var stamp := ReceiptStamp(u.receipt);
        if stamp.RangeError? then []
        else
          var row := StatusRow(id, u.key.value.remoteJid, status, StampValue(stamp));
          if |status| <= width then [row]
          else
            var retry := row.(status := Take(status, 10));
            if |retry.status| <= width then [retry] else []
  }

  /** Receipts for messages not in the store create no status row. */
  lemma UnknownMessageNoStatus(messages: map<string, MessageRow>, width: nat, u: ReceiptUpdate, queryFails: bool)
    requires u.key.Some? && u.key.value.id.Some? && u.key.value.id.value !in messages
    ensures StatusRows(messages, width, u, queryFails) == []
  {
  }

  /** The truncate-and-retry path never stores a row the first insert could
      not: a column too narrow for the tag stays too narrow for its first 10
      characters. */
  lemma RetryNeverRescues(messages: map<string, MessageRow>, width: nat, u: ReceiptUpdate, queryFails: bool)
    requires u.key.Some? && Truthy(u.key.value.id)
    requires |StatusTag(if u.receipt.Some? then u.receipt.value.rtype else None)| > width
    ensures StatusRows(messages, width, u, queryFails) == []
  {
    StatusGuardNeverFires(if u.receipt.Some? then u.receipt.value.rtype else None);
  }

  /** A readTimestamp wins over a receiptTimestamp, and with neither the row
      is stored with a null time. */
  lemma StatusTimestampChoice(receipt: Receipt)
    ensures receipt.readTimestamp.Some? && receipt.readTimestamp.value.IsTruthy() ==>
      ReceiptStamp(Some(receipt)) == IsoStamp(receipt.readTimestamp.value.n)
    ensures !(receipt.readTimestamp.Some? && receipt.readTimestamp.value.IsTruthy())
            && !(receipt.receiptTimestamp.Some? && receipt.receiptTimestamp.value.IsTruthy()) ==>
      ReceiptStamp(Some(receipt)) == NullStamp
  {
    var f := [receipt.readTimestamp, receipt.receiptTimestamp];
    assert f[1..][1..] == [];
  }

  /** `handleMessageStatusUpdate(update)`: existence check, tag, guard,
      timestamp, insert, and one retry with a truncated tag. */
  method HandleMessageStatusUpdate(db: Database, u: ReceiptUpdate, queryFails: bool)
    modifies db`statuses
    ensures db.statuses == old(db.statuses) + StatusRows(db.messages, db.statusWidth, u, queryFails)
  {
    if u.key.None? || !Truthy(u.key.value.id) {
      return;
    }
    var messageId := u.key.value.id.value;
    var found := db.MessageExists(u.key.value.id, queryFails);
    if !found {
      return;
    }
    var status := "unknown";
    var rtype := if u.receipt.Some? then u.receipt.value.rtype else None;
    if rtype == Some("read") {
      status := "read";
    } else if rtype == Some("delivery") {
      status := "delivered";
    } else if rtype == Some("sent") {
      status := "sent";
    } else if rtype == Some("error") {
      status := "failed";
    }
    // the source's 20-character guard is dead code (StatusGuardNeverFires)
    assert status == StatusTag(rtype);
    var stamp := ReceiptStamp(u.receipt);
    if stamp.RangeError? {
      return;  // toISOString throws; the outer catch logs it
    }
    var row := StatusRow(messageId, u.key.value.remoteJid, status, StampValue(stamp));
    var outcome := db.InsertStatus(row);
    if outcome == DataTooLong {
      var truncated := row.(status := Take(status, 10));
      var retried := db.InsertStatus(truncated);
    }
  }

  /** The row `handleGroupReadReceipt` appends: status 'read' by the reader,
      at the formatted receipt time. */
  function GroupReceiptRows(messages: map<string, MessageRow>, width: nat, u: ReceiptUpdate, queryFails: bool)
    : (rows: seq<StatusRow>)
    ensures |rows| <= 1
    ensures |rows| == 1 ==>
      && u.key.Some? && Truthy(u.key.value.id) && u.receipt.Some?
      && FirstTruthyNumber([u.receipt.value.readTimestamp, u.receipt.value.receiptTimestamp]).Some?
      && !queryFails && u.key.value.id.value in messages
      && rows[0].status == "read" && rows[0].messageId == u.key.value.id.value
      && rows[0].toJid == Or(u.receipt.value.userJid, u.receipt.value.participantJid) && Truthy(rows[0].toJid)
      && rows[0].timestamp == Some(FormatToMySqlDatetime(FromMs(
           FirstTruthyNumber([u.receipt.value.readTimestamp, u.receipt.value.receiptTimestamp]).value * MsPerSecond)))
    ensures width < |"read"| ==> rows == []
    ensures
      && u.key.Some? && Truthy(u.key.value.id) && u.receipt.Some?
      && FirstTruthyNumber([u.receipt.value.readTimestamp, u.receipt.value.receiptTimestamp]).Some?
      && Truthy(Or(u.receipt.value.userJid, u.receipt.value.participantJid))
      && !queryFails && u.key.value.id.value in messages && |"read"| <= width
      ==> rows == [StatusRow(u.key.value.id.value, Or(u.receipt.value.userJid, u.receipt.value.participantJid),
                             "read", Some(FormatToMySqlDatetime(FromMs(
                               FirstTruthyNumber([u.receipt.value.readTimestamp,
                                                  u.receipt.value.receiptTimestamp]).value * MsPerSecond))))]
  {
    if u.key.None? || !Truthy(u.key.value.id) || u.receipt.None? then []
    else
      var rc := u.receipt.value;
      match FirstTruthyNumber([rc.readTimestamp, rc.receiptTimestamp])
      case None => []
      case Some(ts) =>
        var user := Or(rc.userJid, rc.participantJid);
        if !Truthy(user) || queryFails || u.key.value.id.value !in messages then []
        else
          var row := StatusRow(u.key.value.id.value, user, "read",
                               Some(FormatToMySqlDatetime(FromMs(ts * MsPerSecond))));
          if |row.status| <= width then [row] else []
  }

  /** `handleGroupReadReceipt(update)`. */
  method HandleGroupReadReceipt(db: Database, u: ReceiptUpdate, queryFails: bool)
    modifies db`statuses
    ensures db.statuses == old(db.statuses) + GroupReceiptRows(db.messages, db.statusWidth, u, queryFails)
  {
    if u.key.None? || !Truthy(u.key.value.id) {
      return;
    }
    if u.receipt.None? {
      return;
    }
    var rc := u.receipt.value;
    var timestamp := FirstTruthyNumber([rc.readTimestamp, rc.receiptTimestamp]);
    if timestamp.None? {
      return;
    }
    var userJid := Or(rc.userJid, rc.participantJid);
    if !Truthy(userJid) {
      return;
    }
    var found := db.MessageExists(u.key.value.id, queryFails);
    if !found {
      return;
    }
    var formattedTime := FormatToMySqlDatetime(FromMs(timestamp.value * MsPerSecond));
    var outcome := db.InsertStatus(StatusRow(u.key.value.id.value, userJid, "read", Some(formattedTime)));
  }
}
