/** The loosely typed message envelope the transport delivers
    (`{key, message: {<content type>: ...}, messageTimestamp, pushName}`), and
    the answers of the collaborators (clock, media download, file system,
    database) that one handling of an envelope depends on. */
module Envelope {
  import opened JsValues

  /** `message.key`. */
  datatype MessageKey = MessageKey(
    id: Option<string>,
    fromMe: bool,
    remoteJid: Option<string>,
    participant: Option<string>)

  /** `extendedTextMessage.contextInfo`. */
  datatype ContextInfo = ContextInfo(stanzaId: Option<string>, isForwarded: bool)

  /** The fields any content object may carry. Byte-array fields (`mediaKey`,
      `fileSha256`) are objects, so only their presence matters. Location
      coordinates are kept as the text JavaScript renders for them. */
  datatype Part = Part(
    text: Option<string>,
    contextInfo: Option<ContextInfo>,
    mediaKey: bool,
    fileSha256: bool,
    url: Option<string>,
    caption: Option<string>,
    mimetype: Option<string>,
    width: Option<int>,
    height: Option<int>,
    seconds: Option<int>,
    fileName: Option<string>,
    fileLength: Option<int>,
    degreesLatitude: Option<string>,
    degreesLongitude: Option<string>,
    displayName: Option<string>,
    vcard: Option<string>)

  /** A content object with no fields at all. */
  const NoFields := Part(None, None, false, false, None, None, None, None, None, None,
                         None, None, None, None, None, None)

  /** The value stored under one key of `message.message`: a primitive string
      (as for `conversation`) or an object. */
  datatype Value = Str(s: string) | Obj(part: Part)

  /** `message.message`: its keys in insertion order, which is the order
      `Object.keys` reports. */
  type Content = seq<(string, Value)>

  datatype Envelope = Envelope(
    key: Option<MessageKey>,
    message: Option<Content>,
    messageTimestamp: Option<NumField>,
    pushName: Option<string>)

  /** The name and verified name of the logged-in account (`sock.user`). */
  datatype SockUser = SockUser(name: Option<string>, verifiedName: Option<string>)

  /** What the collaborators answer while one envelope is handled. */
  datatype Io = Io(
    nowMs: int,                 // Date.now()
    downloadOk: bool,           // downloadMediaMessage and the file write succeed
    writeOk: bool,              // the vCard file write succeeds
    existsQueryFails: bool)     // the existence SELECT raises an error

  /** `content[k]`: the value under key `k`, if any. */
  function Get(c: Content, k: string): Option<Value> {
    if |c| == 0 then None
    else if c[0].0 == k then Some(c[0].1)
    else Get(c[1..], k)
  }

  /** `Get` finds the first entry with the key, and nothing when no entry has it. */
  lemma {:induction false} GetFindsFirst(c: Content, k: string)
    ensures Get(c, k).None? <==> forall i :: 0 <= i < |c| ==> c[i].0 != k
    ensures Get(c, k).Some? ==> exists i :: 0 <= i < |c| && c[i] == (k, Get(c, k).value)
                                           && forall j :: 0 <= j < i ==> c[j].0 != k
    decreases |c|
  {
    if |c| > 0 && c[0].0 != k {
      GetFindsFirst(c[1..], k);
      assert forall i :: 1 <= i < |c| ==> c[i] == c[1..][i - 1];
      if Get(c, k).Some? {
        var n :| 0 <= n < |c[1..]| && c[1..][n] == (k, Get(c, k).value) && forall j :: 0 <= j < n ==> c[1..][j].0 != k;
        assert c[n + 1] == c[1..][n];
        forall j | 0 <= j < n + 1 ensures c[j].0 != k {
          if j > 0 {
            assert c[j] == c[1..][j - 1];
          }
        }
      }
    }
  }

  /** JavaScript truthiness of a value: objects always, strings when non-empty. */
  predicate IsTruthy(v: Option<Value>) {
    v.Some? && (v.value.Obj? || v.value.s != "")
  }

  /** Property reads on a value: a primitive string has none of the fields. */
  function FieldsOf(v: Option<Value>): Part {
    if v.Some? && v.value.Obj? then v.value.part else NoFields
  }

  /** `${v}` for a primitive; an object renders as "[object Object]". */
  function ValueText(v: Value): string {
    match v
    case Str(s) => s
    case Obj(_) => "[object Object]"
  }

  /** Truthiness of a number, given the text JavaScript renders for it: only
      zero ("0") and NaN are falsy. */
  predicate TruthyNumeral(s: Option<string>) {
    s.Some? && s.value != "" && s.value != "0" && s.value != "NaN"
  }
}
