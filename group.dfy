/** Group upserts (handler/group.js): the timestamp conversion, the keyed
    update-or-insert of a `whatsapp_groups` row, and the replacement of a
    group's participant rows with stub contacts created on the way. */
module Group {
  import opened JsValues
  import opened JsDate
  import opened Store
  import opened Contact

  /** A participant object of the group metadata. */
  datatype Participant = Participant(
    id: Option<string>,
    jid: Option<string>,
    admin: Option<string>,
    name: Option<string>,
    notify: Option<string>,
    verifiedName: Option<string>,
    imgUrl: Option<string>,
    status: Option<string>,
    isBusiness: Option<bool>,
    business: Option<bool>,
    isEnterprise: Option<bool>,
    verified: Option<bool>,
    inPhoneBook: Option<bool>,
    known: Option<bool>,
    profilePicUrl: Option<string>,
    lastSeen: Option<int>,
    about: Option<string>,
    shortName: Option<string>,
    pushName: Option<string>,
    formattedName: Option<string>,
    vname: Option<string>,
    labels: Option<seq<string>>)

  /** The group object `saveGroupInfo` receives. */
  datatype GroupInfo = GroupInfo(
    groupId: Option<string>,
    groupName: Option<string>,
    subject: Option<string>,
    creation: Option<int>,
    owner: Option<string>,
    desc: Option<string>,
    descId: Option<string>,
    restrict: Option<bool>,
    announce: Option<bool>,
    participants: Option<seq<Participant>>,
    size: Option<int>,
    isCommunity: Option<bool>,
    isParentGroup: Option<bool>,
    parentGroupId: Option<string>,
    linkedParentGroups: Option<seq<string>>,
    ephemeralDuration: Option<int>,
    ephemeralSettingTimestamp: Option<int>)

  /** `convertTimestampToDatetime(timestamp)`: null for a falsy timestamp
      (0 included), else the ISO text cut to seconds with a space for the 'T';
      an out-of-range date throws. */
  function ConvertTimestampToDatetime(ts: Option<int>): (r: Stamp)
    ensures r.NullStamp? <==> !TruthyInt(ts)
    ensures r.RangeError? <==> TruthyInt(ts) && FromSeconds(ts.value).Invalid?
    ensures r.Stamp? ==> IsoDatetime(ts.value) == Some(r.text)
  {
    if !TruthyInt(ts) then NullStamp else IsoStamp(ts.value)
  }

  // ---------------------------------------------------------------- participants

  /** `participant.id || participant.jid`: the jid the contact stub and the
      `participant_id` column use. */
  function ParticipantJid(p: Participant): Option<string> {
    Or(p.id, p.jid)
  }

  /** The minimal contact record created for a participant without one. */
  function StubContact(p: Participant, jid: string): (c: ContactInfo)
    ensures c.jid == Some(jid)
    ensures c.name == OrNull(Or(p.name, p.notify))
    ensures c.isBusiness == Some(FlagOrFalse(p.isBusiness) || FlagOrFalse(p.business))
    ensures c.labels == Some(p.labels.GetOr([]))
  {
    ContactInfo(Some(jid), OrNull(Or(p.name, p.notify)), OrNull(p.notify), OrNull(p.verifiedName),
                OrNull(p.imgUrl), OrNull(p.status),
                Some(FlagOrFalse(p.isBusiness) || FlagOrFalse(p.business)),
                Some(FlagOrFalse(p.isEnterprise)), Some(FlagOrFalse(p.verified)),
                Some(FlagOrFalse(p.inPhoneBook)), Some(FlagOrFalse(p.known)),
                OrNull(p.profilePicUrl), IntOrNull(p.lastSeen), OrNull(p.about), OrNull(p.shortName),
                OrNull(p.pushName), OrNull(p.formattedName), OrNull(p.vname), Some(p.labels.GetOr([])))
  }

  /** One turn of the stub loop: a participant with a jid and no contact row
      gets a stub; everything else leaves the contacts alone. */
  function StubStep(contacts: map<string, ContactRow>, p: Participant): map<string, ContactRow> {
    var jid := ParticipantJid(p);
    if Truthy(jid) && jid.value !in contacts then contacts[jid.value := RowOf(StubContact(p, jid.value))]
    else contacts
  }

  /** `i` is the first participant of `ps` whose id or jid is `k`. */
  predicate FirstWithJid(ps: seq<Participant>, i: int, k: string) {
    0 <= i < |ps| && ParticipantJid(ps[i]) == Some(k) && forall j :: 0 <= j < i ==> ParticipantJid(ps[j]) != Some(k)
  }

  /** The contacts after the stub loop over `ps`: existing rows are kept, and
      each added row is the stub of the first participant with that jid. */
  function WithStubs(contacts: map<string, ContactRow>, ps: seq<Participant>): (r: map<string, ContactRow>)
    ensures forall k :: k in contacts ==> k in r && r[k] == contacts[k]
    ensures forall k :: k in r && k !in contacts ==>
      k != "" && exists i :: FirstWithJid(ps, i, k) && r[k] == RowOf(StubContact(ps[i], k))
    decreases |ps|
  {
    if |ps| == 0 then contacts
    else
      var next := StubStep(contacts, ps[0]);
      var r := WithStubs(next, ps[1..]);
      assert forall k :: k in r && k !in contacts ==>
        k != "" && exists i :: FirstWithJid(ps, i, k) && r[k] == RowOf(StubContact(ps[i], k)) by {
        forall k | k in r && k !in contacts
          ensures k != "" && exists i :: FirstWithJid(ps, i, k) && r[k] == RowOf(StubContact(ps[i], k))
        {
          if k in next {
            assert FirstWithJid(ps, 0, k);
          } else {
            var i :| FirstWithJid(ps[1..], i, k) && r[k] == RowOf(StubContact(ps[1..][i], k));
            assert ps[i + 1] == ps[1..][i];
            forall j | 0 <= j < i + 1 ensures ParticipantJid(ps[j]) != Some(k) {
              if j > 0 {
                assert ps[j] == ps[1..][j - 1];
              }
            }
            assert FirstWithJid(ps, i + 1, k);
          }
        }
      }
      r
  }

  /** The stub loop never rewrites an existing contact, and it adds exactly
      the jids of the participants that have one. */
  lemma {:induction false} StubsKeepContacts(contacts: map<string, ContactRow>, ps: seq<Participant>)
    ensures forall k :: k in contacts ==> k in WithStubs(contacts, ps) && WithStubs(contacts, ps)[k] == contacts[k]
    ensures forall k :: k in WithStubs(contacts, ps) <==>
      k in contacts || exists i :: 0 <= i < |ps| && ParticipantJid(ps[i]) == Some(k) && k != ""
    decreases |ps|
  {
    if |ps| > 0 {
      var next := StubStep(contacts, ps[0]);
      StubsKeepContacts(next, ps[1..]);
      forall k ensures k in WithStubs(contacts, ps) <==>
        k in contacts || exists i :: 0 <= i < |ps| && ParticipantJid(ps[i]) == Some(k) && k != ""
      {
        if k in WithStubs(contacts, ps) && k !in contacts {
          if k in next {
            assert ParticipantJid(ps[0]) == Some(k) && k != "";
          } else {
            var i :| 0 <= i < |ps[1..]| && ParticipantJid(ps[1..][i]) == Some(k) && k != "";
            assert ps[i + 1] == ps[1..][i];
          }
        }
        if exists i :: 0 <= i < |ps| && ParticipantJid(ps[i]) == Some(k) && k != "" {
          var i :| 0 <= i < |ps| && ParticipantJid(ps[i]) == Some(k) && k != "";
          if i > 0 {
            assert ps[1..][i - 1] == ps[i];
          }
        }
      }
    }
  }

  /** Every stub is keyed by its own jid. */
  lemma {:induction false} StubsValid(contacts: map<string, ContactRow>, ps: seq<Participant>)
    requires forall k :: k in contacts ==> contacts[k].jid == k
    ensures forall k :: k in WithStubs(contacts, ps) ==> WithStubs(contacts, ps)[k].jid == k
    decreases |ps|
  {
    if |ps| > 0 {
      StubsValid(StubStep(contacts, ps[0]), ps[1..]);
    }
  }

  /** The row of a participant with an id or a jid: `participant_id` is
      id || jid, `jid` is jid || id, `admin_level` is admin || null. */
  function ParticipantRowOf(g: string, p: Participant): (row: ParticipantRow)
    requires Truthy(ParticipantJid(p))
    ensures row.groupId == g && row.participantId != "" && row.jid != ""
    ensures row.participantId == (if Truthy(p.id) then p.id.value else p.jid.value)
    ensures row.jid == (if Truthy(p.jid) then p.jid.value else p.id.value)
    ensures row.adminLevel == OrNull(p.admin)
  {
    ParticipantRow(g, ParticipantJid(p).value, OrNull(p.admin), Or(p.jid, p.id).value)
  }

  /** The `group_participants` rows inserted for `ps`: one per participant
      with an id or a jid, in list order. */
  function ValidRows(g: string, ps: seq<Participant>): (rows: seq<ParticipantRow>)
    ensures |rows| <= |ps|
    ensures forall i :: 0 <= i < |rows| ==> rows[i].groupId == g && rows[i].participantId != "" && rows[i].jid != ""
    decreases |ps|
  {
    if |ps| == 0 then []
    else
      var p := ps[0];
      if Truthy(ParticipantJid(p)) then
        [ParticipantRowOf(g, p)] + ValidRows(g, ps[1..])
      else ValidRows(g, ps[1..])
  }

  /** When every participant has an id or a jid, the rows line up with the
      list: row i is participant i. */
  lemma {:induction false} ValidRowsInOrder(g: string, ps: seq<Participant>)
    requires forall i :: 0 <= i < |ps| ==> Truthy(ParticipantJid(ps[i]))
    ensures |ValidRows(g, ps)| == |ps|
    ensures forall i :: 0 <= i < |ps| ==>
      ValidRows(g, ps)[i] == ParticipantRowOf(g, ps[i])
    decreases |ps|
  {
    if |ps| > 0 {
      assert forall i :: 0 <= i < |ps[1..]| ==> ps[1..][i] == ps[i + 1];
      ValidRowsInOrder(g, ps[1..]);
    }
  }

  /** The rows of `a + b` are the rows of `a` followed by those of `b`. */
  lemma {:induction false} ValidRowsAppend(g: string, a: seq<Participant>, b: seq<Participant>)
    ensures ValidRows(g, a + b) == ValidRows(g, a) + ValidRows(g, b)
    decreases |a|
  {
    if |a| == 0 {
      assert a + b == b;
    } else {
      assert (a + b)[0] == a[0];
      assert (a + b)[1..] == a[1..] + b;
      ValidRowsAppend(g, a[1..], b);
    }
  }

  /** A single participant gives its row when it has an id or a jid, and
      nothing otherwise. */
  lemma ValidRowsOne(g: string, p: Participant)
    ensures ValidRows(g, [p]) == if Truthy(ParticipantJid(p)) then [ParticipantRowOf(g, p)] else []
  {
    assert [p][1..] == [];
  }

  /** Participants with neither id nor jid produce no row. */
  lemma {:induction false} ValidRowsSkipJidless(g: string, ps: seq<Participant>)
    requires forall i :: 0 <= i < |ps| ==> !Truthy(ParticipantJid(ps[i]))
    ensures ValidRows(g, ps) == []
    decreases |ps|
  {
    if |ps| > 0 {
      assert forall i :: 0 <= i < |ps[1..]| ==> ps[1..][i] == ps[i + 1];
      ValidRowsSkipJidless(g, ps[1..]);
    }
  }

  /** After the delete and the bulk insert the group's rows are exactly the
      new ones, and every other group keeps its rows. */
  lemma ParticipantsReplaced(old_rows: seq<ParticipantRow>, g: string, ps: seq<Participant>, h: string)
    ensures RowsOfGroup(WithoutGroup(old_rows, g) + ValidRows(g, ps), g) == ValidRows(g, ps)
    ensures h != g ==> RowsOfGroup(WithoutGroup(old_rows, g) + ValidRows(g, ps), h) == RowsOfGroup(old_rows, h)
  {
    WithoutGroupRows(old_rows, g, h);
    RowsOfGroupAppend(WithoutGroup(old_rows, g), ValidRows(g, ps), g);
    RowsOfGroupAppend(WithoutGroup(old_rows, g), ValidRows(g, ps), h);
    OwnRows(g, ps);
    if h != g {
      ForeignRows(g, ps, h);
    }
  }

  lemma {:induction false} OwnRows(g: string, ps: seq<Participant>)
    ensures RowsOfGroup(ValidRows(g, ps), g) == ValidRows(g, ps)
    decreases |ps|
  {
    if |ps| > 0 {
      OwnRows(g, ps[1..]);
      var rest := ValidRows(g, ps[1..]);
      if Truthy(ParticipantJid(ps[0])) {
        var r := [ParticipantRowOf(g, ps[0])];
        RowsOfGroupAppend(r, rest, g);
      }
    }
  }

  lemma {:induction false} ForeignRows(g: string, ps: seq<Participant>, h: string)
    requires h != g
    ensures RowsOfGroup(ValidRows(g, ps), h) == []
    decreases |ps|
  {
    if |ps| > 0 {
      ForeignRows(g, ps[1..], h);
      var rest := ValidRows(g, ps[1..]);
      if Truthy(ParticipantJid(ps[0])) {
        var r := [ParticipantRowOf(g, ps[0])];
        RowsOfGroupAppend(r, rest, h);
      }
    }
  }

  // ---------------------------------------------------------------- groups

  /** `group.size || group.participants?.length || 0`. */
  function ParticipantCount(g: GroupInfo): (n: int)
    ensures TruthyInt(g.size) ==> n == g.size.value
    ensures !TruthyInt(g.size) && g.participants.Some? ==> n == |g.participants.value|
    ensures !TruthyInt(g.size) && g.participants.None? ==> n == 0
  {
    if TruthyInt(g.size) then g.size.value
    else if g.participants.Some? && |g.participants.value| > 0 then |g.participants.value|
    else 0
  }

  /** The `whatsapp_groups` row for `g`, or `None` when a timestamp
      conversion throws. */
  function GroupRowOf(g: GroupInfo): (r: Option<GroupRow>)
    requires Truthy(g.groupId)
    ensures r.None? <==>
      ConvertTimestampToDatetime(g.creation).RangeError?
      || ConvertTimestampToDatetime(g.ephemeralSettingTimestamp).RangeError?
    ensures r.Some? ==>
      && r.value.groupId == g.groupId.value
      && r.value.groupName == Or(g.groupName, g.subject)
      && r.value.participantCount == ParticipantCount(g)
      && ParseStrings(r.value.linkedParentGroups) == Some(g.linkedParentGroups.GetOr([]))
      && r.value.creation == StampValue(ConvertTimestampToDatetime(g.creation))
      && r.value.ephemeralSettingTimestamp == StampValue(ConvertTimestampToDatetime(g.ephemeralSettingTimestamp))
  {
    var creation := ConvertTimestampToDatetime(g.creation);
    var ephemeral := ConvertTimestampToDatetime(g.ephemeralSettingTimestamp);
    if creation.RangeError? || ephemeral.RangeError? then None
    else
      LabelsRoundTrip(g.linkedParentGroups);
      Some(GroupRow(g.groupId.value, Or(g.groupName, g.subject), StampValue(creation), g.owner, g.desc,
                    g.descId, g.restrict, g.announce, g.ephemeralDuration, StampValue(ephemeral),
                    g.isCommunity, g.isParentGroup, g.parentGroupId, LabelsJson(g.linkedParentGroups),
                    ParticipantCount(g)))
  }

  // ---------------------------------------------------------------- the tables the upserts change

  /** The three tables `saveGroupInfo` writes. */
  datatype GroupTables = GroupTables(
    groups: map<string, GroupRow>,
    contacts: map<string, ContactRow>,
    participants: seq<ParticipantRow>)

  function TablesOf(db: Database): GroupTables
    reads db
  {
    GroupTables(db.groups, db.contacts, db.participants)
  }

  /** The tables after `saveGroupParticipants(g, participants)`. */
  function ParticipantsSaved(t: GroupTables, g: string, participants: Option<seq<Participant>>): GroupTables {
    if participants.None? || |participants.value| == 0 then t
    else GroupTables(t.groups, WithStubs(t.contacts, participants.value),
                     WithoutGroup(t.participants, g) + ValidRows(g, participants.value))
  }

  /** How `saveGroupInfo` ends. */
  datatype GroupSave = MissingGroupId | ConversionThrew | GroupSaved

  function GroupSaveOutcome(g: GroupInfo): GroupSave {
    if !Truthy(g.groupId) then MissingGroupId
    else if GroupRowOf(g).None? then ConversionThrew
    else GroupSaved
  }

  /** The tables after `saveGroupInfo(g)`. */
  function GroupInfoSaved(t: GroupTables, g: GroupInfo): GroupTables {
    if GroupSaveOutcome(g) != GroupSaved then t
    else ParticipantsSaved(t.(groups := t.groups[g.groupId.value := GroupRowOf(g).value]),
                           g.groupId.value, g.participants)
  }

  /** What one `saveGroupInfo` call promises: without a group id or when a
      conversion throws nothing changes; otherwise the group id keys exactly
      the new row, every other group row is untouched, existing contacts are
      kept, and the group's participant rows are the new list's (or, for an
      empty list, the old ones). */
  lemma SaveGroupInfoEffects(t: GroupTables, g: GroupInfo, h: string)
    ensures GroupSaveOutcome(g) != GroupSaved ==> GroupInfoSaved(t, g) == t
    ensures GroupSaveOutcome(g) == GroupSaved ==>
      var r := GroupInfoSaved(t, g);
      var id := g.groupId.value;
      && r.groups[id] == GroupRowOf(g).value
      && r.groups.Keys == t.groups.Keys + {id}
      && (h != id && h in t.groups ==> r.groups[h] == t.groups[h])
      && (forall k :: k in t.contacts ==> k in r.contacts && r.contacts[k] == t.contacts[k])
      && (g.participants.Some? && |g.participants.value| > 0 ==>
            RowsOfGroup(r.participants, id) == ValidRows(id, g.participants.value))
      && (g.participants.None? || |g.participants.value| == 0 ==>
            RowsOfGroup(r.participants, id) == RowsOfGroup(t.participants, id))
      && (h != id ==> RowsOfGroup(r.participants, h) == RowsOfGroup(t.participants, h))
  {
    if GroupSaveOutcome(g) == GroupSaved && g.participants.Some? && |g.participants.value| > 0 {
      StubsKeepContacts(t.contacts, g.participants.value);
      ParticipantsReplaced(t.participants, g.groupId.value, g.participants.value, h);
    }
  }

  /** `saveGroupParticipants(groupId, participants)`. A null or empty list
      changes nothing, so the group's earlier rows survive. */
  method SaveGroupParticipants(db: Database, g: string, participants: Option<seq<Participant>>)
    requires db.Valid()
    modifies db`contacts, db`participants
    ensures db.Valid()
    ensures TablesOf(db) == ParticipantsSaved(old(TablesOf(db)), g, participants)
  {
    if participants.None? || |participants.value| == 0 {
      return;
    }
    var ps := participants.value;
    var i := 0;
    while i < |ps|
      invariant 0 <= i <= |ps|
      invariant db.Valid()
      invariant WithStubs(db.contacts, ps[i..]) == WithStubs(old(db.contacts), ps)
      invariant db.participants == old(db.participants)
    {
      assert ps[i..][1..] == ps[i + 1..];
      var jid := ParticipantJid(ps[i]);
      if Truthy(jid) {
        var existing := db.ContactExists(jid);
        if !existing {
          var ok := SaveContactInfo(db, StubContact(ps[i], jid.value));
        }
      }
      i := i + 1;
    }
    assert ps[i..] == [];
    db.DeleteParticipants(g);
    var values := ValidRows(g, ps);
    if |values| > 0 {
      db.InsertParticipants(values);
    } else {
      assert db.participants == WithoutGroup(old(db.participants), g) + values;
    }
  }

  /** `saveGroupInfo(group)`: update the row keyed by the group id when it
      exists, insert it otherwise, then replace its participants. */
  method SaveGroupInfo(db: Database, g: GroupInfo) returns (r: GroupSave)
    requires db.Valid()
    modifies db`groups, db`contacts, db`participants
    ensures db.Valid()
    ensures r == GroupSaveOutcome(g)
    ensures TablesOf(db) == GroupInfoSaved(old(TablesOf(db)), g)
  {
    if !Truthy(g.groupId) {
      return MissingGroupId;
    }
    var id := g.groupId.value;
    var existing := db.GroupExists(id);
    var row := GroupRowOf(g);
    if row.None? {
      return ConversionThrew;
    }
    if existing {
      db.UpdateGroup(row.value);
    } else {
      var ok := db.InsertGroup(row.value);
    }
    SaveGroupParticipants(db, id, g.participants);
    r := GroupSaved;
  }
}
