/** Media descriptors (handler/media.js): the per-type descriptor chosen from
    the first key of the content object, the availability test on the media
    keys, and the guard-and-result contract of saving media and contact cards.
    Downloading, streaming and writing files are collaborators whose outcome is
    given by `Io`. */
module Media {
  import opened JsValues
  import opened Envelope

  /** What `getMediaFileInfo` returns: `kind` is the record's `type` field. */
  datatype FileInfo = FileInfo(
    kind: string,
    ext: string,
    caption: Option<string>,
    mimeType: Option<string>,
    width: Option<int>,
    height: Option<int>,
    duration: Option<int>,
    fileName: Option<string>,
    fileSize: Option<int>,
    displayName: Option<string>)

  /** The six content keys `getMediaFileInfo` knows. */
  predicate IsKnownMediaKey(k: string) {
    k in {"imageMessage", "videoMessage", "audioMessage", "documentMessage", "stickerMessage",
          "contactMessage"}
  }

  /** The file extension of a document: the text after the first '/' of its
      mimetype, or "bin" when that is missing or empty. */
  function DocumentExtension(mimetype: Option<string>): (ext: string)
    ensures ext != "" && '/' !in ext
    ensures mimetype.None? || '/' !in mimetype.value ==> ext == "bin"
  {
    var sub := SecondField(mimetype.GetOr(""), '/');
    if Truthy(sub) then sub.value else "bin"
  }

  /** For a mimetype `a/b…` where `b` runs to the next '/' or to the end,
      the extension is `b`, or "bin" when `b` is empty, as in "image/" or
      "a//b". */
  lemma DocumentExtensionOf(a: string, b: string, rest: string)
    requires '/' !in a && '/' !in b
    requires rest == [] || rest[0] == '/'
    ensures DocumentExtension(Some(a + "/" + b + rest)) == if b == "" then "bin" else b
  {
    var m := a + "/" + b + rest;
    assert m[..|a|] == a;
    IndexOfFirst(m, '/', |a|);
    assert m[|a| + 1..] == b + rest;
    if rest != [] {
      assert (b + rest)[..|b|] == b;
      IndexOfFirst(b + rest, '/', |b|);
    } else {
      assert b + rest == b;
    }
  }

  /** The descriptor for content key `key`, when it is one of the six. */
  function Descriptor(key: string, p: Part): (r: Option<FileInfo>)
    ensures r.Some? <==> IsKnownMediaKey(key)
    ensures r.Some? ==> r.value.kind + "Message" == key
  {
    match key
    case "imageMessage" =>
      assert "image" + "Message" == "imageMessage";
      Some(FileInfo("image", "jpg", Some(OrDefault(p.caption, "")), p.mimetype, p.width, p.height,
                    None, None, None, None))
    case "videoMessage" =>
      assert "video" + "Message" == "videoMessage";
      Some(FileInfo("video", "mp4", Some(OrDefault(p.caption, "")), p.mimetype, None, None,
                    p.seconds, None, None, None))
    case "audioMessage" =>
      assert "audio" + "Message" == "audioMessage";
      Some(FileInfo("audio", "opus", None, p.mimetype, None, None, p.seconds, None, None, None))
    case "documentMessage" =>
      assert "document" + "Message" == "documentMessage";
      Some(FileInfo("document", DocumentExtension(p.mimetype), None, p.mimetype, None, None, None,
                    Some(OrDefault(p.fileName, "document")), p.fileLength, None))
    case "stickerMessage" =>
      assert "sticker" + "Message" == "stickerMessage";
      Some(FileInfo("sticker", "webp", None, p.mimetype, None, None, None, None, None, None))
    case "contactMessage" =>
      assert "contact" + "Message" == "contactMessage";
      Some(FileInfo("contact", "vcf", None, None, None, None, None, None, None,
                    Some(OrDefault(p.displayName, "Contact"))))
    case _ => None
  }

  /** `getMediaFileInfo(message)`: dispatches on the FIRST key of the content
      object, whatever the other keys are. */
  function GetMediaFileInfo(message: Option<Content>): (r: Option<FileInfo>)
    ensures r.None? <==>
      || message.None? || |message.value| == 0 || message.value[0].0 == ""
      || !IsTruthy(Some(message.value[0].1)) || !IsKnownMediaKey(message.value[0].0)
    ensures r.Some? ==> r.value.kind + "Message" == message.value[0].0
  {
    if message.None? then None
    else
      var c := message.value;
      if |c| == 0 || c[0].0 == "" then None
      else
        var v := Get(c, c[0].0);
        if !IsTruthy(v) then None else Descriptor(c[0].0, FieldsOf(v))
  }

  /** The descriptor's fixed extension and defaults for each type. */
  lemma DescriptorTable(message: Option<Content>)
    requires GetMediaFileInfo(message).Some?
    ensures var f := GetMediaFileInfo(message).value;
            var p := FieldsOf(Some(message.value[0].1));
            && (f.kind == "image" ==> f.ext == "jpg" && f.caption == Some(OrDefault(p.caption, "")))
            && (f.kind == "video" ==> f.ext == "mp4" && f.caption == Some(OrDefault(p.caption, ""))
                                      && f.duration == p.seconds)
            && (f.kind == "audio" ==> f.ext == "opus" && f.duration == p.seconds)
            && (f.kind == "document" ==> f.ext == DocumentExtension(p.mimetype)
                                         && f.fileName == Some(OrDefault(p.fileName, "document")))
            && (f.kind == "sticker" ==> f.ext == "webp")
            && (f.kind == "contact" ==> f.ext == "vcf"
                                        && f.displayName == Some(OrDefault(p.displayName, "Contact")))
  {
    var c := message.value;
    assert Get(c, c[0].0) == Some(c[0].1);
  }

  /** At least one of the three keys a download needs. */
  predicate HasMediaSource(p: Part) {
    p.mediaKey || p.fileSha256 || Truthy(p.url)
  }

  /** `i` is the first entry of `c` under key `k`. */
  predicate FirstEntry(c: Content, i: int, k: string) {
    0 <= i < |c| && c[i].0 == k && forall j :: 0 <= j < i ==> c[j].0 != k
  }

  /** The first entry under `k` is entry `i`, an object holding a media source. */
  predicate SourceAt(c: Content, i: int, k: string) {
    FirstEntry(c, i, k) && c[i].1.Obj? && HasMediaSource(c[i].1.part)
  }

  /** Reading `c[k]` and testing it for a media source looks at the first
      entry under `k`. */
  lemma FirstEntrySource(c: Content, k: string)
    ensures IsTruthy(Get(c, k)) && HasMediaSource(FieldsOf(Get(c, k))) <==> exists i :: SourceAt(c, i, k)
  {
    GetFindsFirst(c, k);
    if Get(c, k).Some? {
      var i :| 0 <= i < |c| && c[i] == (k, Get(c, k).value) && forall j :: 0 <= j < i ==> c[j].0 != k;
      assert FirstEntry(c, i, k);
      assert Get(c, k).value == c[i].1;
      if c[i].1.Str? {
        assert !HasMediaSource(NoFields);
      } else if HasMediaSource(c[i].1.part) {
        assert SourceAt(c, i, k);
      }
      forall n | SourceAt(c, n, k) ensures n == i {
        assert c[n].0 == k && c[i].0 == k;
      }
    }
  }

  /** `isMediaAvailable(message, t)`: the first `<t>Message` entry of the
      content is an object holding a media source; a string entry never is. */
  predicate IsMediaAvailable(message: Option<Content>, t: string): (r: bool)
    ensures message.None? ==> !r
    ensures message.Some? ==> (r <==> exists i :: SourceAt(message.value, i, t + "Message"))
  {
    if message.None? then false
    else
      FirstEntrySource(message.value, t + "Message");
      IsTruthy(Get(message.value, t + "Message")) && HasMediaSource(FieldsOf(Get(message.value, t + "Message")))
  }

  /** A saved file: its name and its path relative to the handler directory. */
  datatype SavedFile = SavedFile(fileName: string, relativePath: string)

  /** How `saveMedia` ends: it returns null both when a guard fails before any
      download (`Skipped`) and when the download or the write fails (`Failed`). */
  datatype SaveResult = Skipped | Failed | Saved(file: SavedFile) {
    function AsOption(): Option<SavedFile> {
      if Saved? then Some(file) else None
    }
  }

  /** `<type>_<Date.now()>.<ext>` under `media/<type>/`. */
  function MediaFile(t: string, ext: string, nowMs: int): SavedFile {
    var name := t + "_" + IntToString(nowMs) + "." + ext;
    SavedFile(name, "media/" + t + "/" + name)
  }

  /** `saveMedia(message, type, ext)`: three guards, then the download. */
  function SaveMedia(env: Envelope, t: string, ext: string, io: Io): (r: SaveResult)
    ensures r.Skipped? <==>
      !(env.key.Some? && Truthy(env.key.value.id) && IsMediaAvailable(env.message, t))
    ensures r.Saved? <==> !r.Skipped? && io.downloadOk
    ensures r.Saved? ==> StartsWith(r.file.relativePath, "media/" + t + "/")
    ensures r.Saved? ==> r.file.fileName == t + "_" + IntToString(io.nowMs) + "." + ext
    ensures r.Saved? ==> r.file.relativePath == "media/" + t + "/" + r.file.fileName
  {
    if env.key.None? || !Truthy(env.key.value.id) then Skipped
    else if env.message.None? || !IsTruthy(Get(env.message.value, t + "Message")) then Skipped
    else
      var m := FieldsOf(Get(env.message.value, t + "Message"));
      if !m.mediaKey && !m.fileSha256 && !Truthy(m.url) then Skipped
      else if !io.downloadOk then Failed
      else Saved(MediaFile(t, ext, io.nowMs))
  }

  /** `saveContactVCard(contactMessage)`: writes the vCard text; writing an
      absent vCard throws, and every error yields null. */
  function SaveContactVCard(card: Part, io: Io): (r: Option<SavedFile>)
    ensures r.Some? <==> card.vcard.Some? && io.writeOk
    ensures r.Some? ==> r.value == MediaFile("contact", "vcf", io.nowMs)
  {
    if card.vcard.None? || !io.writeOk then None else Some(MediaFile("contact", "vcf", io.nowMs))
  }
}
