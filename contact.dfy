/** Contact upserts (handler/contact.js): the contact record, its `contacts`
    row with the labels stored as JSON text, the keyed update-or-insert, and
    the lookup by jid. */
module Contact {
  import opened JsValues
  import opened Store

  /** The contact object `saveContactInfo` receives. */
  datatype ContactInfo = ContactInfo(
    jid: Option<string>,
    name: Option<string>,
    notify: Option<string>,
    verifiedName: Option<string>,
    imgUrl: Option<string>,
    status: Option<string>,
    isBusiness: Option<bool>,
    isEnterprise: Option<bool>,
    verified: Option<bool>,
    inPhoneBook: Option<bool>,
    known: Option<bool>,
    profilePicUrl: Option<string>,
    lastSeen: Option<int>,
    about: Option<string>,
    shortName: Option<string>,
    pushName: Option<string>,
    formattedName: Option<string>,
    vname: Option<string>,
    labels: Option<seq<string>>)

  // ---------------------------------------------------------------- JSON.stringify of a string array

  function HexDigit(d: nat): char
    requires d < 16
  {
    "0123456789abcdef"[d]
  }

  function HexValue(c: char): (d: Option<nat>)
    ensures d.Some? ==> d.value < 16
  {
    if '0' <= c <= '9' then Some(c as nat - '0' as nat)
    else if 'a' <= c <= 'f' then Some(c as nat - 'a' as nat + 10)
    else if 'A' <= c <= 'F' then Some(c as nat - 'A' as nat + 10)
    else None
  }

  /** The escape sequence JSON.stringify writes for one character. */
  function EscapeChar(c: char): (e: string)
    ensures e != "" && e[0] != '"'
  {
    if c == '"' then "\\\""
    else if c == '\\' then "\\\\"
    else if c == '\U{0008}' then "\\b"
    else if c == '\U{000C}' then "\\f"
    else if c == '\n' then "\\n"
    else if c == '\r' then "\\r"
    else if c == '\t' then "\\t"
    else if c < ' ' then "\\u00" + [HexDigit(c as nat / 16), HexDigit(c as nat % 16)]
    else [c]
  }

  function Escape(s: string): string {
    if |s| == 0 then "" else EscapeChar(s[0]) + Escape(s[1..])
  }

  /** `JSON.stringify(s)` for a string. */
  function Quote(s: string): string {
    "\"" + Escape(s) + "\""
  }

  function Items(l: seq<string>): string {
    if |l| == 0 then ""
    else if |l| == 1 then Quote(l[0])
    else Quote(l[0]) + "," + Items(l[1..])
  }

  /** `JSON.stringify(l)` for an array of strings. */
  function StringifyStrings(l: seq<string>): string {
    "[" + Items(l) + "]"
  }

  /** `JSON.stringify(contact.labels || [])`. */
  function LabelsJson(labels: Option<seq<string>>): string {
    StringifyStrings(labels.GetOr([]))
  }

  // ---------------------------------------------------------------- a JSON reader, to state what the text means

  /** The character a two-character escape stands for. */
  function ShortEscape(c: char): Option<char> {
    if c == '"' then Some('"')
    else if c == '\\' then Some('\\')
    else if c == '/' then Some('/')
    else if c == 'b' then Some('\U{0008}')
    else if c == 'f' then Some('\U{000C}')
    else if c == 'n' then Some('\n')
    else if c == 'r' then Some('\r')
    else if c == 't' then Some('\t')
    else None
  }

  /** Four hexadecimal digits. */
  function Hex4(s: string): (r: Option<nat>)
    requires |s| == 4
    ensures r.Some? ==> r.value < 0x10000
  {
    var a, b, c, d := HexValue(s[0]), HexValue(s[1]), HexValue(s[2]), HexValue(s[3]);
    if a.Some? && b.Some? && c.Some? && d.Some? then
      Some(((a.value * 16 + b.value) * 16 + c.value) * 16 + d.value)
    else None
  }

  function Prepend(c: char, r: Option<(string, string)>): Option<(string, string)> {
    if r.None? then None else Some(([c] + r.value.0, r.value.1))
  }

  /** Reads the body of a JSON string literal up to its closing quote:
      the characters it denotes and the text after the quote. */
  function ReadString(s: string): (r: Option<(string, string)>)
    ensures r.Some? ==> |r.value.1| < |s|
    decreases |s|
  {
    if |s| == 0 then None
    else if s[0] == '"' then Some(("", s[1..]))
    else if s[0] == '\\' then
      if |s| < 2 then None
      else
        var short := ShortEscape(s[1]);
        if short.Some? then Prepend(short.value, ReadString(s[2..]))
        else if s[1] != 'u' || |s| < 6 then None
        else
          var code := Hex4(s[2..6]);
          if code.Some? && !(0xD800 <= code.value < 0xE000) then Prepend(code.value as char, ReadString(s[6..]))
          else None
    else if s[0] < ' ' then None
    else Prepend(s[0], ReadString(s[1..]))
  }

  /** Reads `"…","…",…]` to the end of the text. */
  function ParseItems(t: string): Option<seq<string>>
    decreases |t|
  {
    if |t| == 0 || t[0] != '"' then None
    else
      match ReadString(t[1..])
      case None => None
      case Some((x, r)) =>
        if r == "]" then Some([x])
        else if |r| > 0 && r[0] == ',' then
          match ParseItems(r[1..])
          case None => None
          case Some(xs) => Some([x] + xs)
        else None
  }

  /** `JSON.parse(s)` restricted to arrays of strings. */
  function ParseStrings(s: string): Option<seq<string>> {
    if s == "[]" then Some([])
    else if |s| > 0 && s[0] == '[' then ParseItems(s[1..])
    else None
  }

  /** The characters with a two-character escape. */
  predicate HasShortEscape(c: char) {
    c == '"' || c == '\\' || c == '\U{0008}' || c == '\U{000C}' || c == '\n' || c == '\r' || c == '\t'
  }

  lemma ReadShortEscape(c: char, t: string)
    requires HasShortEscape(c)
    ensures ReadString(EscapeChar(c) + t) == Prepend(c, ReadString(t))
  {
    var s := EscapeChar(c) + t;
    assert |EscapeChar(c)| == 2 && s[0] == '\\' && s[1] == EscapeChar(c)[1];
    assert ShortEscape(s[1]) == Some(c);
    assert s[2..] == t;
  }

  lemma ReadUnicodeEscape(c: char, t: string)
    requires !HasShortEscape(c) && c < ' '
    ensures ReadString(EscapeChar(c) + t) == Prepend(c, ReadString(t))
  {
    var h := [HexDigit(c as nat / 16), HexDigit(c as nat % 16)];
    var s := EscapeChar(c) + t;
    assert s == "\\u00" + h + t;
    assert s[0] == '\\' && s[1] == 'u' && |s| >= 6;
    assert s[2..6] == "00" + h;
    HexPair(c);
    assert s[6..] == t;
  }

  /** The four hex digits of a control character read back as its code. */
  lemma HexPair(c: char)
    requires c < ' '
    ensures Hex4("00" + [HexDigit(c as nat / 16), HexDigit(c as nat % 16)]) == Some(c as nat)
  {
    var h := "00" + [HexDigit(c as nat / 16), HexDigit(c as nat % 16)];
    HexDigitValue(c as nat / 16);
    HexDigitValue(c as nat % 16);
    assert HexValue(h[0]) == Some(0) && HexValue(h[1]) == Some(0);
    assert HexValue(h[2]) == Some(c as nat / 16) && HexValue(h[3]) == Some(c as nat % 16);
  }

  lemma HexDigitValue(d: nat)
    requires d < 16
    ensures HexValue(HexDigit(d)) == Some(d)
  {
  }

  /** One escaped character reads back as itself. */
  lemma ReadEscapedChar(c: char, t: string)
    ensures ReadString(EscapeChar(c) + t) == Prepend(c, ReadString(t))
  {
    if HasShortEscape(c) {
      ReadShortEscape(c, t);
    } else if c < ' ' {
      ReadUnicodeEscape(c, t);
    } else {
      assert (EscapeChar(c) + t)[1..] == t;
    }
  }

  /** Escaped text followed by a quote reads back as the text. */
  lemma {:induction false} ReadEscaped(cs: string, rest: string)
    ensures ReadString(Escape(cs) + "\"" + rest) == Some((cs, rest))
    decreases |cs|
  {
    if |cs| == 0 {
      assert Escape(cs) + "\"" + rest == "\"" + rest;
    } else {
      assert Escape(cs) + "\"" + rest == EscapeChar(cs[0]) + (Escape(cs[1..]) + "\"" + rest);
      ReadEscapedChar(cs[0], Escape(cs[1..]) + "\"" + rest);
      ReadEscaped(cs[1..], rest);
      assert [cs[0]] + cs[1..] == cs;
    }
  }

  /** A quoted string reads back as itself, whatever follows it. */
  lemma ReadQuoted(x: string, rest: string)
    ensures (Quote(x) + rest)[0] == '"'
    ensures ReadString((Quote(x) + rest)[1..]) == Some((x, rest))
  {
    assert (Quote(x) + rest)[1..] == Escape(x) + "\"" + rest;
    ReadEscaped(x, rest);
  }

  /** One step of the item reader over a quoted string. */
  lemma ParseItemsQuoted(x: string, rest: string)
    ensures ParseItems(Quote(x) + rest) ==
      if rest == "]" then Some([x])
      else if |rest| > 0 && rest[0] == ',' && ParseItems(rest[1..]).Some? then Some([x] + ParseItems(rest[1..]).value)
      else None
  {
    ReadQuoted(x, rest);
  }

  lemma {:induction false} ParseItemsRoundTrip(l: seq<string>)
    requires |l| > 0
    ensures ParseItems(Items(l) + "]") == Some(l)
    decreases |l|
  {
    if |l| == 1 {
      ParseItemsQuoted(l[0], "]");
      assert Items(l) + "]" == Quote(l[0]) + "]";
      assert l == [l[0]];
    } else {
      var tail := Items(l[1..]) + "]";
      assert Items(l) + "]" == Quote(l[0]) + "," + tail;
      ParseItemsRoundTrip(l[1..]);
      ParseItemsStep(l[0], tail, l[1..]);
      assert [l[0]] + l[1..] == l;
    }
  }

  /** A quoted item and a comma in front of items that read back. */
  lemma ParseItemsStep(x: string, tail: string, xs: seq<string>)
    requires ParseItems(tail) == Some(xs)
    ensures ParseItems(Quote(x) + "," + tail) == Some([x] + xs)
  {
    var rest := "," + tail;
    assert Quote(x) + "," + tail == Quote(x) + rest;
    assert rest[0] != "]"[0];
    assert rest[1..] == tail;
    ParseItemsQuoted(x, rest);
  }

  /** The labels column is the JSON text of the labels: reading it back gives
      the labels, or the empty array when there were none. */
  lemma LabelsRoundTrip(labels: Option<seq<string>>)
    ensures ParseStrings(LabelsJson(labels)) == Some(labels.GetOr([]))
  {
    var l := labels.GetOr([]);
    if |l| > 0 {
      var s := LabelsJson(labels);
      assert s[1] == '"';
      assert s[1..] == Items(l) + "]";
      ParseItemsRoundTrip(l);
    }
  }

  // ---------------------------------------------------------------- contacts table

  /** The row `saveContactInfo` writes for a contact with a jid. */
  function RowOf(c: ContactInfo): (row: ContactRow)
    requires c.jid.Some?
    ensures row.jid == c.jid.value
    ensures ParseStrings(row.labels) == Some(c.labels.GetOr([]))
  {
    LabelsRoundTrip(c.labels);
    ContactRow(c.jid.value, c.name, c.notify, c.verifiedName, c.imgUrl, c.status, c.isBusiness,
               c.isEnterprise, c.verified, c.inPhoneBook, c.known, c.profilePicUrl, c.lastSeen,
               c.about, c.shortName, c.pushName, c.formattedName, c.vname, LabelsJson(c.labels))
  }

  /** `saveContactInfo(contact)`: update the row keyed by the jid when it
      exists, insert one otherwise. A contact without a jid matches no row,
      and its insert violates the key column; the error is rethrown. */
  method SaveContactInfo(db: Database, contact: ContactInfo) returns (ok: bool)
    requires db.Valid()
    modifies db`contacts
    ensures db.Valid()
    ensures ok <==> contact.jid.Some?
    ensures ok ==> db.contacts == old(db.contacts)[contact.jid.value := RowOf(contact)]
    ensures !ok ==> db.contacts == old(db.contacts)
    ensures ok && contact.jid.value !in old(db.contacts) ==> |db.contacts| == |old(db.contacts)| + 1
    ensures ok && contact.jid.value in old(db.contacts) ==> |db.contacts| == |old(db.contacts)|
  {
    var existing := db.ContactExists(contact.jid);
    if existing {
      db.UpdateContact(RowOf(contact));
      ok := true;
    } else if contact.jid.None? {
      ok := false;
    } else {
      ok := db.InsertContact(RowOf(contact));
    }
  }

  /** `getContactByJid(jid)`: the row keyed by the jid, or null. */
  method GetContactByJid(db: Database, jid: Option<string>) returns (r: Option<ContactRow>)
    ensures r.Some? <==> jid.Some? && jid.value in db.contacts
    ensures r.Some? ==> r.value == db.contacts[jid.value]
  {
    if jid.Some? && jid.value in db.contacts {
      r := Some(db.contacts[jid.value]);
    } else {
      r := None;
    }
  }
}
