/** The relational store as abstract state: the `messages`, `message_reactions`,
    `message_status`, `contacts`, `whatsapp_groups` and `group_participants`
    tables, with the SQL statements the handlers issue as methods. Keyed tables
    are maps from their key column to the row; the append-only tables are
    sequences in insertion order. */
module Store {
  import opened JsValues

  /** A row of `messages`; `messageId` is its unique key. */
  datatype MessageRow = MessageRow(
    messageId: string,
    senderName: string,
    sender: string,
    text: string,
    messageType: string,
    time: string,
    device: string,
    mediaPath: Option<string>,
    mediaCaption: Option<string>,
    mediaMimeType: Option<string>,
    mediaSize: Option<int>,
    mediaDuration: Option<int>,
    mediaWidth: Option<int>,
    mediaHeight: Option<int>,
    quotedMessageId: Option<string>,
    forwarded: bool,
    fromMe: bool)

  /** A row of `message_reactions`. */
  datatype ReactionRow = ReactionRow(messageId: string, fromJid: string, reactionText: string, timestamp: string)

  /** A row of `message_status`; `toJid` and `timestamp` are nullable. */
  datatype StatusRow = StatusRow(messageId: string, toJid: Option<string>, status: string, timestamp: Option<string>)

  /** A row of `contacts`, keyed by `jid`. `labels` is JSON text. */
  datatype ContactRow = ContactRow(
    jid: string,
    name: Option<string>,
    notify: Option<string>,
    verifiedName: Option<string>,
    imgUrl: Option<string>,
    status: Option<string>,
    isBusiness: Option<bool>,
    isEnterprise: Option<bool>,
    verified: Option<bool>,
    inPhoneBook: Option<bool>,
    known: Option<bool>,
    profilePicUrl: Option<string>,
    lastSeen: Option<int>,
    about: Option<string>,
    shortName: Option<string>,
    pushName: Option<string>,
    formattedName: Option<string>,
    vname: Option<string>,
    labels: string)

  /** A row of `whatsapp_groups`, keyed by `groupId`. */
  datatype GroupRow = GroupRow(
    groupId: string,
    groupName: Option<string>,
    creation: Option<string>,
    owner: Option<string>,
    description: Option<string>,
    descriptionId: Option<string>,
    isRestricted: Option<bool>,
    announce: Option<bool>,
    ephemeralDuration: Option<int>,
    ephemeralSettingTimestamp: Option<string>,
    isCommunity: Option<bool>,
    isParentGroup: Option<bool>,
    parentGroupId: Option<string>,
    linkedParentGroups: string,
    participantCount: int)

  /** A row of `group_participants`. */
  datatype ParticipantRow = ParticipantRow(groupId: string, participantId: string, adminLevel: Option<string>, jid: string)

  /** The rows of `ps` that do not belong to group `g`, in their order
      (`DELETE FROM group_participants WHERE group_id = g`). */
  function WithoutGroup(ps: seq<ParticipantRow>, g: string): (r: seq<ParticipantRow>)
    ensures forall i :: 0 <= i < |r| ==> r[i].groupId != g
    ensures forall p :: p in ps && p.groupId != g ==> p in r
    ensures forall p :: p in r ==> p in ps
    ensures |r| <= |ps|
  {
    if |ps| == 0 then []
    else if ps[0].groupId == g then WithoutGroup(ps[1..], g)
    else [ps[0]] + WithoutGroup(ps[1..], g)
  }

  /** The rows of `ps` that belong to group `g`, in their order. */
  function RowsOfGroup(ps: seq<ParticipantRow>, g: string): (r: seq<ParticipantRow>)
    ensures forall i :: 0 <= i < |r| ==> r[i].groupId == g
    ensures forall p :: p in ps && p.groupId == g ==> p in r
  {
    if |ps| == 0 then []
    else if ps[0].groupId == g then [ps[0]] + RowsOfGroup(ps[1..], g)
    else RowsOfGroup(ps[1..], g)
  }

  /** Deleting a group's rows leaves it none and keeps every other group's rows. */
  lemma {:induction false} WithoutGroupRows(ps: seq<ParticipantRow>, g: string, h: string)
    ensures RowsOfGroup(WithoutGroup(ps, g), g) == []
    ensures h != g ==> RowsOfGroup(WithoutGroup(ps, g), h) == RowsOfGroup(ps, h)
    decreases |ps|
  {
    if |ps| > 0 {
      WithoutGroupRows(ps[1..], g, h);
    }
  }

  lemma {:induction false} RowsOfGroupAppend(a: seq<ParticipantRow>, b: seq<ParticipantRow>, g: string)
    ensures RowsOfGroup(a + b, g) == RowsOfGroup(a, g) + RowsOfGroup(b, g)
    decreases |a|
  {
    if |a| == 0 {
      assert a + b == b;
    } else {
      assert (a + b)[0] == a[0];
      assert (a + b)[1..] == a[1..] + b;
      RowsOfGroupAppend(a[1..], b, g);
    }
  }

  /** How a `message_status` insert ends. */
  datatype StatusInsert = StatusStored | DataTooLong

  /** The store, with the width of the `message_status.status` column. */
  class Database {
    var messages: map<string, MessageRow>
    var reactions: seq<ReactionRow>
    var statuses: seq<StatusRow>
    var contacts: map<string, ContactRow>
    var groups: map<string, GroupRow>
    var participants: seq<ParticipantRow>
    const statusWidth: nat

    /** Keys agree with the key columns of their rows. */
    ghost predicate Valid()
      reads this
    {
      && (forall id :: id in messages ==> messages[id].messageId == id)
      && (forall jid :: jid in contacts ==> contacts[jid].jid == jid)
      && (forall g :: g in groups ==> groups[g].groupId == g)
    }

    constructor (statusWidth: nat)
      ensures Valid()
      ensures messages == map[] && reactions == [] && statuses == []
      ensures contacts == map[] && groups == map[] && participants == []
      ensures this.statusWidth == statusWidth
    {
      messages := map[];
      reactions := [];
      statuses := [];
      contacts := map[];
      groups := map[];
      participants := [];
      this.statusWidth := statusWidth;
    }

    /** `SELECT message_id FROM messages WHERE message_id = ?`, answering false
        when the query fails; a null id matches no row. */
    method MessageExists(id: Option<string>, queryFails: bool) returns (b: bool)
      ensures b <==> !queryFails && id.Some? && id.value in messages
    {
      if queryFails || id.None? {
        b := false;
      } else {
        b := id.value in messages;
      }
    }

    /** `INSERT INTO messages`: rejected by the unique key when the id is taken. */
    method InsertMessage(row: MessageRow) returns (ok: bool)
      requires Valid()
      modifies this`messages
      ensures Valid()
      ensures ok <==> row.messageId !in old(messages)
      ensures messages == if ok then old(messages)[row.messageId := row] else old(messages)
    {
      ok := row.messageId !in messages;
      if ok {
        messages := messages[row.messageId := row];
      }
    }

    /** `INSERT INTO message_reactions`: no key, always appended. */
    method InsertReaction(row: ReactionRow)
      modifies this`reactions
      ensures reactions == old(reactions) + [row]
    {
      reactions := reactions + [row];
    }

    /** `INSERT INTO message_status`: fails with ER_DATA_TOO_LONG when the
        status does not fit its column. */
    method InsertStatus(row: StatusRow) returns (r: StatusInsert)
      modifies this`statuses
      ensures r == DataTooLong <==> |row.status| > statusWidth
      ensures statuses == if r == StatusStored then old(statuses) + [row] else old(statuses)
    {
      if |row.status| > statusWidth {
        r := DataTooLong;
      } else {
        r := StatusStored;
        statuses := statuses + [row];
      }
    }

    /** `SELECT jid FROM contacts WHERE jid = ?`. */
    method ContactExists(jid: Option<string>) returns (b: bool)
      ensures b <==> jid.Some? && jid.value in contacts
    {
      b := jid.Some? && jid.value in contacts;
    }

    /** `UPDATE contacts SET … WHERE jid = ?`. */
    method UpdateContact(row: ContactRow)
      requires Valid()
      modifies this`contacts
      ensures Valid()
      ensures contacts == if row.jid in old(contacts) then old(contacts)[row.jid := row] else old(contacts)
    {
      if row.jid in contacts {
        contacts := contacts[row.jid := row];
      }
    }

    /** `INSERT INTO contacts`: rejected by the key when the jid is taken. */
    method InsertContact(row: ContactRow) returns (ok: bool)
      requires Valid()
      modifies this`contacts
      ensures Valid()
      ensures ok <==> row.jid !in old(contacts)
      ensures contacts == if ok then old(contacts)[row.jid := row] else old(contacts)
    {
      ok := row.jid !in contacts;
      if ok {
        contacts := contacts[row.jid := row];
      }
    }

    /** `SELECT group_id FROM whatsapp_groups WHERE group_id = ?`. */
    method GroupExists(g: string) returns (b: bool)
      ensures b <==> g in groups
    {
      b := g in groups;
    }

    /** `UPDATE whatsapp_groups SET … WHERE group_id = ?`. */
    method UpdateGroup(row: GroupRow)
      requires Valid()
      modifies this`groups
      ensures Valid()
      ensures groups == if row.groupId in old(groups) then old(groups)[row.groupId := row] else old(groups)
    {
      if row.groupId in groups {
        groups := groups[row.groupId := row];
      }
    }

    /** `INSERT INTO whatsapp_groups`: rejected by the key when the id is taken. */
    method InsertGroup(row: GroupRow) returns (ok: bool)
      requires Valid()
      modifies this`groups
      ensures Valid()
      ensures ok <==> row.groupId !in old(groups)
      ensures groups == if ok then old(groups)[row.groupId := row] else old(groups)
    {
      ok := row.groupId !in groups;
      if ok {
        groups := groups[row.groupId := row];
      }
    }

    /** `DELETE FROM group_participants WHERE group_id = ?`. */
    method DeleteParticipants(g: string)
      modifies this`participants
      ensures participants == WithoutGroup(old(participants), g)
    {
      participants := WithoutGroup(participants, g);
    }

    /** The bulk `INSERT INTO group_participants … VALUES ?`. */
    method InsertParticipants(rows: seq<ParticipantRow>)
      modifies this`participants
      ensures participants == old(participants) + rows
    {
      participants := participants + rows;
    }
  }
}
