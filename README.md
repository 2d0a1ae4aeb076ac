# WhatsApp logger — a verified model of its core

The logger connects to WhatsApp through a Baileys socket and records what it
sees in MySQL: incoming and outgoing messages with their media, reactions,
delivery and read receipts, contacts, and groups with their participants. A
small HTTP API sends text, media, button and list messages through the same
socket. This project models in Dafny the handlers that decide what gets stored
and what gets sent, and proves properties of them.

Modules, one per file:

- `JsValues` (`jsvalues.dfy`): JavaScript truthiness and `a || b` on nullable
  fields, decimal rendering of integers and reading it back, and the string
  operations the handlers use (`slice`, `split('/')[1]`, `replace`,
  `toLowerCase`, capitalisation).
- `JsDate` (`jsdate.dfy`): the `Date` object as integer arithmetic on time
  values. It covers the invalid date outside ±8.64e15 ms, the proleptic
  Gregorian calendar fields, and `toISOString`, which throws a RangeError on an
  invalid date.
- `Envelope` (`envelope.dfy`): the loosely typed message envelope. Its content
  object is an ordered key/value list, so that "the first key" means what
  `Object.keys(...)[0]` means. It also holds `Io`, the answers of the
  collaborators one handling depends on.
- `Media` (`media.dfy`, after `handler/media.js`): the descriptor chosen from the first content key; the
  media-availability test; the guard-and-result contract of `saveMedia` and
  `saveContactVCard`.
- `Store` (`store.dfy`): the six tables as a `Database` class. Keyed tables are
  maps; the append-only tables are sequences. The SQL statements the handlers
  issue are its methods.
- `Message` (`message.dfy`, after `handler/message.js`): device detection, the two datetime formatters, the
  content branch chain of `handleIncomingMessage` and the insert-if-absent of
  the message row, reaction validation, the per-message status, and the group
  read receipt.
- `Contact` (`contact.dfy`, after `handler/contact.js`): the upsert of a contact. This includes
  `JSON.stringify` of the labels, proved to read back to the same list.
- `Group` (`group.dfy`, after `handler/group.js`): the timestamp conversion, the group upsert, and the
  participant refresh: stub contacts, then delete, then a bulk insert.
- `Server` (`server.dfy`, after `server.js`): `retryWithBackoff`; the FIFO metadata queue as a
  class with its `isProcessingQueue` flag; the tasks queued by `groups.update`
  and `group-participants.update`; the group record built from fetched
  metadata; and the reshaping of `messages.reaction` payloads.
- `SendApi` (`sendapi.dfy`, after `api/sendMessage.js`): the four POST endpoints as total functions
  from a request to a reply and the message sent, driven by a `Router` class
  that holds the socket flag and the log of sent messages. Also the data-URL
  prefix strip and the temp-file extension.

The collaborators are parameters:

- the clock (`Io.nowMs`);
- whether a media download, a vCard write or a base64 temp file succeeds;
- whether the existence query fails;
- whether `sock.sendMessage` succeeds;
- the answers of `sock.groupMetadata`, as an oracle from call number to
  outcome.

Sleeps are recorded as a list of delays. Nothing waits.

Notes on the code's behaviour that the model keeps:

- Reactions are stored without checking that the message exists
  (handler/message.js:202-283).
- The queue pauses only after a task whose fetch succeeded. A failed fetch
  goes to the `catch` and moves straight on (server.js:228-246).
- A reaction timestamp counts as milliseconds only when it is greater than
  10000000000 (handler/message.js:253-256).
- A reaction with empty text, which is how WhatsApp removes a reaction, is
  rejected and not stored (handler/message.js:221-224).
- Truncating the receipt status to 10 characters and retrying can never store
  more than the first insert did, since every status the code produces has
  at most 9 characters (handler/message.js:331-340, 371-375).
- A message without a timestamp falls back to `Date.now()`, which is already
  in milliseconds, and the formatter multiplies it by 1000 again
  (handler/message.js:38-39, `TimestampOrNow`). The stored time then lies tens
  of thousands of years ahead.

## Model

| member | source | states |
|---|---|---|
| JsValues.Or | handler/message.js:45 | JavaScript's or on a nullable string: `a` when it is non-null and non-empty, otherwise `b` |
| JsValues.OrNull | handler/group.js:152-168 | `x` or null: null exactly when `x` is falsy, and is `x` otherwise |
| JsValues.OrDefault | handler/media.js:105 | `x` or a default: `x`'s text when truthy, else the default |
| JsValues.IntOrNull | handler/message.js:521-524 | a number or null: drops zero as well as null |
| JsValues.NatToString | handler/message.js:21 | the decimal rendering of a number is a non-empty string of digits |
| JsValues.ParseNatToString | handler/message.js:21 | reading the rendered digits back gives the number |
| JsValues.Take | handler/group.js:11 | `slice(0, 19)` keeps a prefix of length min(19, length) |
| JsValues.SecondField | handler/media.js:129 | `split('/')[1]`: missing exactly when there is no '/', else the text between the first '/' and the next |
| JsValues.ReplaceFirst | handler/group.js:11 | `replace('T', ' ')` changes only the first 'T', and leaves a string without 'T' unchanged |
| JsValues.AsciiLower | api/sendMessage.js:116 | `toLowerCase()` maps every character and keeps the length |
| JsValues.Capitalize | handler/message.js:504 | the first character is upper-cased and the rest kept |
| JsDate.FromMs | handler/message.js:27 | `new Date(t)` is valid exactly when abs(t) ≤ 8.64e15, and then holds `t` |
| JsDate.CivilOf | handler/message.js:21 | the calendar getters give a well-formed date: a month 1–12, a day within the month, and h/m/s in range |
| JsDate.CivilRoundTrip | handler/message.js:21 | the calendar fields give back the time value up to its milliseconds |
| JsDate.ToIsoString | handler/group.js:11 | `toISOString()` returns a string exactly for a valid date; the invalid date throws |
| JsDate.IsoDatetime | handler/message.js:351 | `toISOString().slice(0,19).replace('T',' ')` of `seconds*1000` is defined exactly when that date is valid |
| JsDate.IsoStamp | handler/message.js:351 | the column value is a RangeError exactly for an invalid date, else the converted text; never null |
| Envelope.GetFindsFirst | handler/media.js:17 | a property read finds the first entry with that key, and nothing exactly when no entry has it |
| Media.DocumentExtension | handler/media.js:129-132 | a document's extension is never empty and never holds '/'; it is "bin" when the mimetype is missing or has no '/' |
| Media.DocumentExtensionOf | handler/media.js:129-132 | for a mimetype `a/b` followed by nothing or by another '/', the extension is `b`, or "bin" when `b` is empty |
| Media.Descriptor | handler/media.js:100-154 | a descriptor exists exactly for the six known content keys, and its type plus "Message" is the key |
| Media.GetMediaFileInfo | handler/media.js:88-155 | null exactly when the message or its first key is missing, empty, falsy or unknown; otherwise the type follows the first key |
| Media.IsMediaAvailable | handler/media.js:158-167 | available exactly when the content's first `<type>Message` entry is an object with a media key, a file hash or a URL; never without content, and never for a string entry |
| Media.DescriptorTable | handler/media.js:100-150 | the fixed extension and defaults of each type: jpg/mp4/opus/webp/vcf, the caption `''`, the "document" name, and "Contact" |
| Media.SaveMedia | handler/media.js:8-60 | skipped exactly when the key id or the media keys are missing; saved exactly when not skipped and the download succeeds; the file is named `<type>_<now>.<ext>` and its relative path is `media/<type>/` followed by that name |
| Media.SaveContactVCard | handler/media.js:63-85 | a file exactly when the vCard is present and the write succeeds, named `contact_<now>.vcf` |
| Store.WithoutGroup | handler/group.js:178 | `DELETE … WHERE group_id = g` keeps exactly the other groups' rows |
| Store.WithoutGroupRows | handler/group.js:178 | after the delete the group has no rows and every other group keeps its rows |
| Store.RowsOfGroupAppend | handler/group.js:192-196 | a bulk insert appends its rows to each group's rows |
| Store.Database.MessageExists | handler/message.js:289-300 | true exactly when the query does not fail and the id is a stored message |
| Store.Database.InsertMessage | handler/message.js:158-183 | the unique key rejects a taken id; otherwise the row is added under its id |
| Store.Database.InsertReaction | handler/message.js:269-279 | the reaction row is appended |
| Store.Database.InsertStatus | handler/message.js:358-366 | fails with ER_DATA_TOO_LONG exactly when the status is wider than its column; otherwise appended |
| Store.Database.ContactExists | handler/contact.js:11-14 | true exactly when the jid is present and stored |
| Store.Database.UpdateContact | handler/contact.js:18-60 | replaces the row of an existing jid and changes nothing else |
| Store.Database.InsertContact | handler/contact.js:65-91 | the key rejects a taken jid; otherwise the row is added |
| Store.Database.GroupExists | handler/group.js:28-31 | true exactly when the group id is stored |
| Store.Database.UpdateGroup | handler/group.js:39-73 | replaces the row of an existing group and changes nothing else |
| Store.Database.InsertGroup | handler/group.js:81-104 | the key rejects a taken group id; otherwise the row is added |
| Store.Database.DeleteParticipants | handler/group.js:178 | the participants table loses exactly the group's rows |
| Store.Database.InsertParticipants | handler/group.js:191-196 | the rows are appended in order |
| Contact.EscapeChar | handler/contact.js:58 | `JSON.stringify` renders each character as a non-empty text that does not start with a quote |
| Contact.ReadEscapedChar | handler/contact.js:58 | every escaped character reads back as itself |
| Contact.ReadEscaped | handler/contact.js:58 | an escaped string followed by a closing quote reads back whole |
| Contact.ParseItemsRoundTrip | handler/contact.js:58 | a non-empty list of quoted strings reads back as the same list |
| Contact.LabelsRoundTrip | handler/contact.js:58 | the labels column, the JSON text of the labels or `[]`, parses back to the labels (or `[]`) |
| Contact.RowOf | handler/contact.js:40-60 | the row carries the contact's jid, and its labels text parses back to the labels |
| Contact.SaveContactInfo | handler/contact.js:8-99 | with a jid, the contact's row is stored under it, updated or inserted; the table grows exactly when the jid was new; without a jid nothing changes |
| Contact.GetContactByJid | handler/contact.js:120-128 | the stored row of the jid, or null exactly when none is stored |
| Group.ConvertTimestampToDatetime | handler/group.js:9-12 | null exactly for a falsy timestamp; a RangeError exactly for an out-of-range date; else its ISO datetime |
| Group.WithStubs | handler/group.js:131-175 | the stub loop keeps every existing contact row, and each row it adds is non-empty-keyed and is the stub of the first participant with that id or jid |
| Group.StubContact | handler/group.js:150-171 | the minimal contact takes the participant's jid, the name (else the notify name), `isBusiness` or `business`, and the labels (else `[]`) |
| Group.StubsKeepContacts | handler/group.js:131-175 | the stub pass keeps every existing contact unchanged and adds exactly the participants' missing jids |
| Group.StubsValid | handler/group.js:131-175 | the stub pass keeps every contact stored under its own jid |
| Group.ParticipantRowOf | handler/group.js:182-188 | a row takes `id` (else `jid`) as participant id, `jid` (else `id`) as jid, and `admin` or null |
| Group.ValidRows | handler/group.js:181-188 | the rows all belong to the group and have non-empty ids, and there are no more rows than participants |
| Group.ValidRowsInOrder | handler/group.js:181-188 | when every participant has a jid there is one row per participant, in order |
| Group.ValidRowsSkipJidless | handler/group.js:181 | participants without `id` and `jid` produce no rows |
| Group.ValidRowsAppend | handler/group.js:181-188 | the rows of `a + b` are the rows of `a` followed by the rows of `b` |
| Group.ValidRowsOne | handler/group.js:181-188 | one participant gives its own row when it has an id or a jid, and no row otherwise |
| Group.ParticipantsReplaced | handler/group.js:177-196 | after delete-then-insert the group's rows are exactly the new ones; other groups keep theirs |
| Group.ParticipantCount | handler/group.js:71 | `size` when truthy, else the length of `participants`, else 0 |
| Group.GroupRowOf | handler/group.js:33-73 | the row exists exactly when neither timestamp throws; it carries the id, `group_name` (else `subject`), the count, linked groups that read back, and `creation` and `ephemeral_setting_timestamp` as the converted timestamps |
| Group.SaveGroupInfoEffects | handler/group.js:19-115 | a saved group is stored under its id, and the other groups and all contacts are kept; non-empty participants replace the group's rows; nothing changes when the save is refused |
| Group.SaveGroupParticipants | handler/group.js:123-206 | the contacts and participants tables become the participant refresh of the old ones |
| Group.SaveGroupInfo | handler/group.js:19-115 | the outcome and the new tables are those of the group save |
| Message.DetectDevice | handler/message.js:7-15 | first match among the tests in the order iOS ("3A" plus 18 characters), Web ("3E" plus 20), Android (21 or 32 characters), Desktop ("3F" or 18 characters), in both directions: each tag implies its test, each passing test gives its tag unless an earlier one passed, and "Unknown" exactly when none passes |
| Message.DetectSenderDeviceType | handler/message.js:5-16 | a missing or empty id gives "Unknown"; otherwise the tag of the id |
| Message.DesktopPrefix | handler/message.js:13-14 | any single-line id starting "3F" that is not 21 or 32 characters long is Desktop |
| Message.FormatToMySqlDatetime | handler/message.js:19-22 | the invalid date formats as "NaN-NaN-NaN NaN:NaN:NaN" |
| Message.PadTwoDigits | handler/message.js:20 | `pad` of a number below 100 is two digits that read back as that number |
| Message.FormatRoundTrip | handler/message.js:19-22 | for a four-digit year, the formatted text is a MySQL datetime that parses back to the calendar fields |
| Message.IsoDatetimeAgreesWithFormatter | handler/message.js:350-354 | for four-digit years, the ISO conversion and the local formatter give the same text (in UTC) |
| Message.GetFormattedTimestamp | handler/message.js:24-31 | null exactly for a missing, zero, NaN or out-of-range timestamp; else the formatter's text |
| Message.FirstApplicableSpec | handler/message.js:65-146 | an `if … else if` chain picks the first branch whose test holds, and none exactly when no test holds |
| Message.SelectBranchFollowsPrecedence | handler/message.js:65-146 | the branch chosen is the first applicable one in the order conversation, extended text, image, video, audio, document, sticker, location, contact |
| Message.HandleMediaMessageFacts | handler/message.js:489-530 | a record exactly when the first content key is one of the six media keys with a truthy value; a path under `media/<type>/` exactly when the key has an id, the typed message has a download source and the download succeeds; the text opens with the capitalised type and then the file name or " (media not available)" |
| Message.MediaTextMentions | handler/message.js:504-514 | the text starts with the capitalised type, names the saved file or says media is not available, and holds a truthy caption |
| Message.PlaceholderWhenUnavailable | handler/message.js:69-130 | a media branch without media keys stores only "<Type> (media not available)", whatever the download would do |
| Message.LocationNeedsBothCoordinates | handler/message.js:131-135 | a location gives text exactly when both coordinates are truthy |
| Message.ResolvedTextTruthy | handler/message.js:149 | any text produced comes from a branch and is non-empty, so the `if (text)` test passes |
| Message.FirstKeyDisagreement | handler/message.js:69-79 | a message whose image is not its first key passes the branch test and the availability test yet stores nothing |
| Message.SenderName | handler/message.js:42-49 | for an incoming message the push name, else "Tidak diketahui"; for an own message the account name, else its verified name, else "Me", and "Me" without a socket user; never empty |
| Message.MessageType | handler/message.js:37 | the first content key when it is non-empty, and "unknown" exactly otherwise |
| Message.IncomingRow | handler/message.js:148-183 | a row exactly when there is an id and a text, and it carries that id and text |
| Message.InsertIfAbsent | handler/message.js:151-156 | a row whose id is absent is added under its id; no row, or a taken id, leaves the table unchanged; existing rows are never changed |
| Message.FreshMessageStored | handler/message.js:149-156 | an envelope with an id and a text whose id is not stored adds exactly its own row, carrying its text, and the table grows by one; any other envelope changes nothing |
| Message.FirstSeenPreserved | handler/message.js:151-156 | a message already stored is never overwritten |
| Message.OnlyOwnIdAdded | handler/message.js:148-183 | handling a message adds at most its own id |
| Message.ReplayIsIdempotent | handler/message.js:151-156 | handling the same envelope again changes nothing, even when the downloads answer differently |
| Message.ResolveContent | handler/message.js:55-146 | the branch chain's variables are the content resolution of the envelope |
| Message.HandleIncomingMessage | handler/message.js:34-199 | the messages table becomes the insert-if-absent of the envelope's row |
| Message.FirstTruthyNumber | handler/message.js:228-250 | the first truthy timestamp field wins, and none exactly when all are falsy |
| Message.ToSeconds | handler/message.js:254-256 | a value above 1e10 is floored from milliseconds to seconds; others are kept |
| Message.CheckReaction | handler/message.js:202-266 | accepted exactly when the key id, the text, a timestamp and a participant are all present; the row carries them; no reaction, no key and no key id are each rejected exactly in their case, and the text, timestamp and participant rejections each follow the earlier checks passing |
| Message.EmptyReactionDropped | handler/message.js:221-225 | a reaction whose only text is empty is rejected for missing text |
| Message.HandleReactionUpdate | handler/message.js:202-286 | the reactions table grows by the checked row, or not at all |
| Message.StatusTag | handler/message.js:331-340 | read becomes "read", delivery "delivered", sent "sent" and error "failed"; "unknown" exactly for anything else; 4 to 9 characters |
| Message.StatusGuardNeverFires | handler/message.js:343-346 | the 20-character guard never fires, and cutting to 10 characters changes nothing |
| Message.ReceiptStamp | handler/message.js:349-354 | null exactly when both receipt timestamps are falsy; a RangeError exactly when the first truthy one is an invalid date; else its ISO text |
| Message.StatusRows | handler/message.js:303-398 | at most one row, and exactly one when the id is truthy and stored, the lookup works, the timestamp converts and the tag fits the column: that row is the message id, the remote jid, the status tag and the converted receipt time; no row when the timestamp conversion throws |
| Message.UnknownMessageNoStatus | handler/message.js:323-328 | a receipt for an unknown message stores nothing |
| Message.RetryNeverRescues | handler/message.js:371-390 | when the status is too wide for its column, the truncated retry stores nothing either |
| Message.StatusTimestampChoice | handler/message.js:349-354 | `readTimestamp` wins when truthy; with neither timestamp truthy the column is null |
| Message.HandleMessageStatusUpdate | handler/message.js:303-398 | the status table grows by exactly the status rows of the update |
| Message.GroupReceiptRows | handler/message.js:434-486 | at most one row, and exactly one when the key has an id, the receipt has a truthy timestamp and a user jid, the message is stored and the column holds "read": that row is the message id, the reader, "read" and the formatted receipt time (seconds times 1000) |
| Message.HandleGroupReadReceipt | handler/message.js:434-486 | the status table grows by exactly the group receipt rows |
| Server.RetryCalls | server.js:253-277 | one to `maxRetries` calls; the last call's value is returned, or its error rethrown when it is the last allowed call or not a rate limit |
| Server.RetryDelayAt | server.js:266-270 | the i-th sleep follows a rate-limit failure and lasts `baseDelay * 2^i` |
| Server.RetryDelays | server.js:266-270 | every sleep follows a rate-limit failure and doubles the previous one |
| Server.OtherErrorsNotRetried | server.js:271-274 | an error other than a rate limit is rethrown after one call |
| Server.DefaultBackoff | server.js:211-235 | with 3 retries and a 1000 ms base, two rate limits mean sleeps of 1000 and 2000 ms and a third call |
| Server.RetryWithBackoff | server.js:253-277 | the loop's outcome, calls and delays are those of the retry definition |
| Server.BuildGroupData | server.js:314-332 | the group record copies the id and subject; the flags default to false, the lists to [], the size to the participant count, and creation, owner, description, parent id and ephemeral fields to null when falsy |
| Server.BuiltGroupCount | server.js:323-324 | the stored participant count is the number of fetched participants |
| Server.CallbackNeedsMetadataId | server.js:300-311 | a missing fetch result or a metadata id that is missing changes nothing |
| Server.DrainAppend | server.js:224-247 | draining two task lists in turn is draining their concatenation |
| Server.TaskEffects | server.js:225-246 | a task makes 1 to 3 fetches; a failed fetch keeps the tables and pauses only for the retries, a success adds the 1000 ms pause |
| Server.MetadataQueue.Enqueue | server.js:298 | the task joins the end of the queue |
| Server.MetadataQueue.Process | server.js:219-250 | does nothing while running or when empty; otherwise drains every task in FIFO order and clears the flag |
| Server.GroupsUpdateTasks | server.js:283-341 | every task is a groups.update task with a truthy id, and every truthy id of the batch has its task |
| Server.GroupsUpdateTasksAppend | server.js:283-341 | the tasks of batch `a + b` are those of `a` followed by those of `b` |
| Server.GroupsUpdateTasksOne | server.js:283-288 | one group queues one task with its id when the id is truthy and nothing otherwise |
| Server.QueueGroupsUpdate | server.js:283-341 | the event's tasks are appended to the queue |
| Server.OnGroupsUpdate | server.js:280-345 | queue the event's tasks, then process: the tables become the drain of all pending tasks unless a run is in progress |
| Server.OnParticipantsUpdate | server.js:348-404 | queue one task for the group, then process as above; while a drain is running nothing else changes |
| Server.ReshapeReaction | server.js:96-138 | index 0 with key and reaction is standardised to exactly `{key, text, timestamp}`, its timestamp `senderTimestampMs.toNumber()` else `timestamp`; the toNumber call fails exactly when the sender timestamp is a non-zero plain number; the timestamp is missing exactly when neither field is truthy; otherwise a flat reaction with key and text passes through |
| Server.ZeroLongTimestampRejected | server.js:107-124 | a zero Long timestamp is truthy as an object here but is rejected downstream once converted to 0 |
| Server.OnReaction | server.js:96-138 | the reactions table grows by the rows of the reshaped reaction |
| SendApi.Router.SetSocket | api/sendMessage.js:11-13 | the socket flag becomes the one given |
| SendApi.WordRun | api/sendMessage.js:18 | the longest prefix of `\w` characters |
| SendApi.StripRemovesPrefix | api/sendMessage.js:18 | a `data:<word>/<word>;base64,` prefix is removed, leaving the rest |
| SendApi.StripOnlyPrefix | api/sendMessage.js:18 | when anything is removed, it is exactly such a prefix |
| SendApi.StripKeepsOther | api/sendMessage.js:18 | a text that does not start with a data-URL prefix is returned unchanged |
| SendApi.TempFileExtension | api/sendMessage.js:31 | the temp file's extension is never empty and never holds '/'; it is "bin" when the type has no '/' |
| SendApi.SubtypeExtension | api/sendMessage.js:31 | for `type/subtype` the extension is the subtype |
| SendApi.ParseKind | api/sendMessage.js:166-187 | a kind exactly when the lowered type names one of the five |
| SendApi.ParseKindName | api/sendMessage.js:166-187 | each kind's name selects that kind |
| SendApi.MimeOf | api/sendMessage.js:117-130 | each kind's MIME type has a '/' |
| SendApi.KindExtension | api/sendMessage.js:31-32 | the temp-file extension of each media type's MIME type is its subtype: jpeg, mp4, mpeg, pdf, webp |
| SendApi.TypeExtension | api/sendMessage.js:116-134 | for base64 media the temp-file extension is jpeg, mp4, mpeg, pdf or webp for the five types in any case, and octet-stream for any other type |
| SendApi.MimeForType | api/sendMessage.js:116-134 | the switch's MIME type for one of the five types, whatever its case, and `application/octet-stream` for any other; either way it has a '/' |
| SendApi.TextOutcome | api/sendMessage.js:43-82 | 400 "missing fields" exactly when jid or message is falsy; 500 "socket not connected" when they are given without a socket; otherwise sent, with 200 on success and 500 "failed" when the send throws |
| SendApi.MediaOutcome | api/sendMessage.js:85-210 | 400 "missing fields", then 500 "socket not connected", then 400 "invalid base64" for a non-URL whose file fails, then 400 "invalid media type"; otherwise sent, with 200 or 500 "failed"; the options carry the caption, mimetype, kind, name and source |
| SendApi.FormatButtons | api/sendMessage.js:234-238 | one formatted button per button, in order, with its id and text and type 1 |
| SendApi.ButtonsOutcome | api/sendMessage.js:213-269 | 400 "missing fields" exactly when fields are missing; 500 "socket not connected" without a socket; otherwise sent with footer `''` by default and headerType 1, answered 200 or 500 "failed" |
| SendApi.ListOutcome | api/sendMessage.js:272-323 | 400 "missing fields" exactly when fields are missing; 500 "socket not connected" without a socket; otherwise sent with listType 1, answered 200 or 500 "failed" |
| SendApi.Router.PostText | api/sendMessage.js:43-82 | replies and logs the send as `TextOutcome` says |
| SendApi.Router.PostMedia | api/sendMessage.js:85-210 | replies and logs the send as `MediaOutcome` says |
| SendApi.Router.PostButtons | api/sendMessage.js:213-269 | replies and logs the send as `ButtonsOutcome` says |
| SendApi.Router.PostList | api/sendMessage.js:272-323 | replies and logs the send as `ListOutcome` says |

## Left out

- Local time: `getFullYear`, `getHours` and the other local getters are read in UTC, as if the process ran with `TZ=UTC`. Time zones and daylight saving are not modelled.
- Message.FormatRoundTrip: stated only for years 1000 to 9999, where the unpadded year has four digits.
- Message.IsoDatetimeAgreesWithFormatter: likewise only for four-digit years, and only under the UTC reading of the local getters.
- Floating point: timestamps, sizes and durations are integers. Location coordinates are kept as the text JavaScript renders for them. A fractional or NaN timestamp given to the formatter is not modelled.
- Media download, stream piping, directory creation and file writes are not modelled; `Io` says whether they succeed. So are the `uuid` temp-file name, base64 decoding and the temp-file write, read and unlink of `/media`, whose success is the `fileOk` parameter. The bytes sent for base64 media are represented by the stripped base64 text.
- Console output and the error-message texts of the `catch` blocks that only log are not modelled.
- Concurrency: each handler runs to completion before the next event. The un-awaited `processGroupMetadataQueue()` runs at once. `setTimeout` sleeps are recorded as delays, not waited for.
- Clock-valued columns (`joined_at`, `last_updated`, `lastUpdated`) have no column in the rows, since they hold the database's or the process's current time.
- An object-valued `conversation` is rendered as "[object Object]"; how mysql2 would serialise such an object is not modelled.
- `toLowerCase` and the capitalisation of the media type handle ASCII letters only.
- Message.DetectDevice: the id lengths in its regular expressions are counted in Unicode code points. JavaScript counts UTF-16 code units, so the two differ on ids with characters outside the Basic Multilingual Plane.
- Database failures: only the failure of the message existence query and `ER_DATA_TOO_LONG` on the status column are modelled. Other widths, MySQL's own datetime validation and connection loss are not. A message or contact without an id is taken to be refused by the `NOT NULL` key column.
- `getAllContacts`, `getAllGroups`, `getGroupById` and `getGroupParticipants` are read-only queries that no modelled decision depends on. The participants callback only logs the count it reads.
- `testMessageStatus` and `logReactionStructure` are diagnostics that only read and log.
- The `message-receipt.update` listener only loops over its batch, logs, and calls `handleMessageStatusUpdate` per item (server.js:141-158). The handler is modelled (`HandleMessageStatusUpdate`); the loop and its logging are not.
- The `messages.upsert` listener is not modelled; only its per-message handler is (`HandleIncomingMessage`). Three things the listener does stay outside the model:
  - It handles a batch only when `msg.type` is `'notify'` or `'append'`, and ignores every other type (server.js:74, 90-92).
  - Its log call reads `message.key.id` before the per-message `try` (server.js:76-81). A message without a `key` therefore throws out of the loop, and the rest of the batch is not handled. So the missing-key path of `HandleIncomingMessage` cannot be reached from this listener.
  - The loop itself and its logging.
- The `contacts.update` listener is not modelled; `SaveContactInfo` takes the contact record as already built. The listener builds it from each update (server.js:177-200) and then calls `saveContactInfo` (server.js:202):
  - `jid` is `contact.id`;
  - the text fields default to null and the flags to false;
  - `isBusiness` is `contact.isBusiness`, else `contact.business`, else false;
  - `labels` defaults to `[]`.
- `startBot`, the `connection.update` reconnect, QR printing, the SIGINT shutdown, `database/db.js` and `api/index.js` are process wiring outside the core.
- The `/status` endpoint only reports whether the socket and its user are set.
- The reply `data` and `details` fields are not modelled. Of the reply, only status, success and message are.
- Request fields are taken to be strings, and each entry of `buttons` an object. A non-string `media` or `type` makes `startsWith` or `toLowerCase` throw (api/sendMessage.js:108, 116). A `null` button makes `button.id` throw inside the `map` (api/sendMessage.js:234-235). The source answers 500 in both cases and sends nothing; `MediaOutcome` and `ButtonsOutcome` cannot represent such requests.
- List sections are passed on as opaque JSON text, since the handler only forwards them.
- The `catch` in the queue loop that calls the callback with null after a callback error cannot be reached. Both callbacks catch their own errors, so only a failed fetch leads there.
- The fetched group metadata is not related to the requested group id: the fetch outcomes are indexed by call number, and `Task.groupId` is not passed to them, so the model does not promise that `sock.groupMetadata(groupId)` (server.js:231) returns the metadata of that group.
- Contact labels and linked parent groups are lists of strings. Other JSON values in them are not modelled.
