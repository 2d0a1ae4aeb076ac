/** The event layer of the logger (server.js): the retry loop with
    exponential backoff around metadata fetches, the rate-limited FIFO queue of
    metadata tasks with its single running flag, the task construction of the
    `groups.update` and `group-participants.update` events, the group record
    built from fetched metadata, and the reshaping of `messages.reaction`
    payloads. Sleeps are recorded as delays; the metadata fetch is an oracle
    indexed by call number. */
module Server {
  import opened JsValues
  import opened Envelope
  import opened Store
  import opened Message
  import opened Group

  // ================================================================ retryWithBackoff

  function Pow2(k: nat): (p: nat)
    ensures p >= 1
  {
    if k == 0 then 1 else 2 * Pow2(k - 1)
  }

  /** What a failed call rejects with: `error.data` and `error.message`. */
  datatype FetchError = FetchError(data: Option<int>, message: Option<string>)

  /** `error.data === 429 || error.message?.includes('rate-overlimit')`. */
  predicate IsRateLimit(e: FetchError) {
    e.data == Some(429) || (e.message.Some? && Contains(e.message.value, "rate-overlimit"))
  }

  /** The outcome of one call of `fn`. */
  datatype Attempt<T> = Succeeds(value: T) | Fails(error: FetchError)

  /** How `retryWithBackoff` ends: it resolves (to `undefined` when the loop
      never runs) or rejects. */
  datatype RetryOutcome<T> = Returned(value: Option<T>) | Threw(error: FetchError)

  /** The outcome, the number of calls made and the delays slept, in order. */
  datatype RetryRun<T> = RetryRun(result: RetryOutcome<T>, calls: nat, delays: seq<int>)

  /** The loop of `retryWithBackoff` from `retryCount == count` on, where
      call number k answers `fetch(k)`. */
  function RetryFrom<T>(fetch: nat -> Attempt<T>, count: nat, maxRetries: int, baseDelay: int): RetryRun<T>
    decreases if count < maxRetries then maxRetries - count else 0
  {
    if count >= maxRetries then RetryRun(Returned(None), 0, [])
    else
      match fetch(count)
      case Succeeds(v) => RetryRun(Returned(Some(v)), 1, [])
      case Fails(e) =>
        if count + 1 >= maxRetries || !IsRateLimit(e) then RetryRun(Threw(e), 1, [])
        else
          var rest := RetryFrom(fetch, count + 1, maxRetries, baseDelay);
          RetryRun(rest.result, rest.calls + 1, [baseDelay * Pow2(count)] + rest.delays)
  }

  /** What the loop promises about its calls: it makes between one and
      `maxRetries` calls (none when `maxRetries <= 0`), sleeping once between
      consecutive calls; the last call's success is returned, and its failure
      is rethrown when it was the `maxRetries`-th call or not a rate-limit
      error. */
  lemma {:induction false} RetryCalls<T>(fetch: nat -> Attempt<T>, count: nat, maxRetries: int, baseDelay: int)
    ensures count >= maxRetries ==> RetryFrom(fetch, count, maxRetries, baseDelay) == RetryRun(Returned(None), 0, [])
    ensures var r := RetryFrom(fetch, count, maxRetries, baseDelay);
      count < maxRetries ==> 1 <= r.calls <= maxRetries - count && |r.delays| == r.calls - 1
    ensures var r := RetryFrom(fetch, count, maxRetries, baseDelay);
      r.result.Returned? && r.result.value.Some? ==>
        r.calls >= 1 && fetch(count + r.calls - 1) == Succeeds(r.result.value.value)
    ensures var r := RetryFrom(fetch, count, maxRetries, baseDelay);
      r.result.Threw? ==>
        && r.calls >= 1 && fetch(count + r.calls - 1) == Fails(r.result.error)
        && (count + r.calls == maxRetries || !IsRateLimit(r.result.error))
    ensures RetryFrom(fetch, count, maxRetries, baseDelay).result == Returned(None) ==> count >= maxRetries
    decreases if count < maxRetries then maxRetries - count else 0
  {
    if count < maxRetries && fetch(count).Fails? && count + 1 < maxRetries && IsRateLimit(fetch(count).error) {
      RetryCalls(fetch, count + 1, maxRetries, baseDelay);
    }
  }

  /** The i-th wait: the i-th call failed with a rate-limit error, and the
      wait after the k-th failure is baseDelay·2^(k-1). */
  lemma {:induction false} RetryDelayAt<T>(fetch: nat -> Attempt<T>, count: nat, maxRetries: int, baseDelay: int, i: nat)
    requires i < |RetryFrom(fetch, count, maxRetries, baseDelay).delays|
    ensures fetch(count + i).Fails? && IsRateLimit(fetch(count + i).error)
    ensures RetryFrom(fetch, count, maxRetries, baseDelay).delays[i] == baseDelay * Pow2(count + i)
    decreases i
  {
    var r := RetryFrom(fetch, count, maxRetries, baseDelay);
    var rest := RetryFrom(fetch, count + 1, maxRetries, baseDelay);
    assert r.delays == [baseDelay * Pow2(count)] + rest.delays;
    if i > 0 {
      RetryDelayAt(fetch, count + 1, maxRetries, baseDelay, i - 1);
      assert r.delays[i] == rest.delays[i - 1];
      assert count + 1 + (i - 1) == count + i;
    }
  }

  /** Every wait follows a rate-limit failure and doubles the one before. */
  lemma RetryDelays<T>(fetch: nat -> Attempt<T>, maxRetries: int, baseDelay: int)
    ensures var r := RetryFrom(fetch, 0, maxRetries, baseDelay);
      forall i: nat :: i < |r.delays| ==>
        fetch(i).Fails? && IsRateLimit(fetch(i).error) && r.delays[i] == baseDelay * Pow2(i)
  {
    var r := RetryFrom(fetch, 0, maxRetries, baseDelay);
    forall i: nat | i < |r.delays|
      ensures fetch(i).Fails? && IsRateLimit(fetch(i).error) && r.delays[i] == baseDelay * Pow2(i)
    {
      RetryDelayAt(fetch, 0, maxRetries, baseDelay, i);
    }
  }

  /** A first failure that is not a rate-limit error is rethrown after a
      single call, whatever the retry budget. */
  lemma OtherErrorsNotRetried<T>(fetch: nat -> Attempt<T>, maxRetries: int, baseDelay: int)
    requires maxRetries >= 1 && fetch(0).Fails? && !IsRateLimit(fetch(0).error)
    ensures RetryFrom(fetch, 0, maxRetries, baseDelay) == RetryRun(Threw(fetch(0).error), 1, [])
  {
  }

  /** With the defaults (3 tries, 1000 ms), two rate-limit failures are
      followed by waits of 1000 ms and 2000 ms, and the third call's outcome
      is final. */
  lemma DefaultBackoff<T>(fetch: nat -> Attempt<T>)
    requires fetch(0).Fails? && IsRateLimit(fetch(0).error)
    requires fetch(1).Fails? && IsRateLimit(fetch(1).error)
    ensures var r := RetryFrom(fetch, 0, MaxRetries, GroupMetadataDelay);
      && r.calls == 3 && r.delays == [1000, 2000]
      && r.result == (match fetch(2)
                      case Succeeds(v) => Returned(Some(v))
                      case Fails(e) => Threw(e))
  {
    var r2 := RetryFrom(fetch, 2, MaxRetries, GroupMetadataDelay);
    var r1 := RetryFrom(fetch, 1, MaxRetries, GroupMetadataDelay);
    assert r1.delays == [1000 * Pow2(1)] + r2.delays;
  }

  function Prefixed<T>(calls: nat, delays: seq<int>, r: RetryRun<T>): RetryRun<T> {
    RetryRun(r.result, calls + r.calls, delays + r.delays)
  }

  /** `retryWithBackoff(fn, maxRetries, baseDelay)`. */
  method RetryWithBackoff<T>(fetch: nat -> Attempt<T>, maxRetries: int, baseDelay: int)
    returns (result: RetryOutcome<T>, calls: nat, delays: seq<int>)
    ensures RetryRun(result, calls, delays) == RetryFrom(fetch, 0, maxRetries, baseDelay)
  {
    var retryCount: nat := 0;
    calls, delays := 0, [];
    while retryCount < maxRetries
      invariant calls == retryCount
      invariant RetryFrom(fetch, 0, maxRetries, baseDelay)
                == Prefixed(calls, delays, RetryFrom(fetch, retryCount, maxRetries, baseDelay))
      decreases maxRetries - retryCount
    {
      calls := calls + 1;
      match fetch(retryCount)
      case Succeeds(v) =>
        return Returned(Some(v)), calls, delays;
      case Fails(e) =>
        retryCount := retryCount + 1;
        if retryCount >= maxRetries {
          return Threw(e), calls, delays;
        }
        if IsRateLimit(e) {
          ghost var rest := RetryFrom(fetch, retryCount, maxRetries, baseDelay);
          assert delays + ([baseDelay * Pow2(retryCount - 1)] + rest.delays)
              == delays + [baseDelay * Pow2(retryCount - 1)] + rest.delays;
          delays := delays + [baseDelay * Pow2(retryCount - 1)];
        } else {
          return Threw(e), calls, delays;
        }
    }
    result := Returned(None);
  }

  // ================================================================ group metadata and the group record

  /** What `sock.groupMetadata(id)` resolves to. */
  datatype GroupMetadata = GroupMetadata(
    id: Option<string>,
    subject: Option<string>,
    creation: Option<int>,
    owner: Option<string>,
    desc: Option<string>,
    descId: Option<string>,
    restrict: Option<bool>,
    announce: Option<bool>,
    participants: Option<seq<Participant>>,
    isCommunity: Option<bool>,
    isParentGroup: Option<bool>,
    parentGroupId: Option<string>,
    linkedParentGroups: Option<seq<string>>,
    ephemeralDuration: Option<int>,
    ephemeralSettingTimestamp: Option<int>)

  /** The `groupData` object both metadata callbacks build. */
  function BuildGroupData(md: GroupMetadata): (g: GroupInfo)
    ensures g.groupId == md.id && g.groupName == md.subject && g.subject.None?
    ensures g.participants == Some(md.participants.GetOr([]))
    ensures g.restrict == Some(FlagOrFalse(md.restrict)) && g.announce == Some(FlagOrFalse(md.announce))
    ensures g.isCommunity == Some(FlagOrFalse(md.isCommunity))
    ensures g.isParentGroup == Some(FlagOrFalse(md.isParentGroup))
    ensures g.linkedParentGroups == Some(md.linkedParentGroups.GetOr([]))
    ensures g.size == Some(|md.participants.GetOr([])|)
    ensures g.creation == IntOrNull(md.creation) && g.owner == OrNull(md.owner)
    ensures g.desc == OrNull(md.desc) && g.descId == OrNull(md.descId)
    ensures g.parentGroupId == OrNull(md.parentGroupId)
    ensures g.ephemeralDuration == IntOrNull(md.ephemeralDuration)
    ensures g.ephemeralSettingTimestamp == IntOrNull(md.ephemeralSettingTimestamp)
  {
    GroupInfo(md.id, md.subject, None, IntOrNull(md.creation), OrNull(md.owner), OrNull(md.desc),
              OrNull(md.descId), Some(FlagOrFalse(md.restrict)), Some(FlagOrFalse(md.announce)),
              Some(md.participants.GetOr([])),
              Some(if md.participants.Some? then |md.participants.value| else 0),
              Some(FlagOrFalse(md.isCommunity)), Some(FlagOrFalse(md.isParentGroup)),
              OrNull(md.parentGroupId), Some(md.linkedParentGroups.GetOr([])),
              IntOrNull(md.ephemeralDuration), IntOrNull(md.ephemeralSettingTimestamp))
  }

  /** The stored participant count of a fetched group is the length of its
      participant list, 0 when it has none; its name is the subject. */
  lemma BuiltGroupCount(md: GroupMetadata)
    ensures ParticipantCount(BuildGroupData(md)) == |md.participants.GetOr([])|
  {
  }

  // ================================================================ the metadata queue

  const GroupMetadataDelay := 1000
  const MaxRetries := 3

  /** Which event queued the task; only the `groups.update` callback checks
      the metadata id itself. */
  datatype TaskKind = GroupsUpdateTask | ParticipantsUpdateTask

  /** A queue entry `{groupId, callback}`. */
  datatype Task = Task(kind: TaskKind, groupId: Option<string>)

  /** The tables after a task's callback receives `md` (null after a failed
      fetch). */
  function Callback(t: GroupTables, kind: TaskKind, md: Option<GroupMetadata>): GroupTables {
    if md.None? then t
    else if kind == GroupsUpdateTask && !Truthy(md.value.id) then t
    else GroupInfoSaved(t, BuildGroupData(md.value))
  }

  /** A null result or metadata without an id saves nothing, for either kind
      of task. */
  lemma CallbackNeedsMetadataId(t: GroupTables, kind: TaskKind, md: Option<GroupMetadata>)
    requires md.None? || !Truthy(md.value.id)
    ensures Callback(t, kind, md) == t
  {
  }

  /** The part of the process state the queue drain changes besides itself. */
  datatype QueueState = QueueState(tables: GroupTables, fetchCalls: nat, pauses: seq<int>)

  /** The fetch oracle seen by a retry loop that starts after `n` earlier calls. */
  function Shift(oracle: nat -> Attempt<GroupMetadata>, n: nat): nat -> Attempt<GroupMetadata> {
    (k: nat) => oracle(n + k)
  }

  /** One turn of the drain loop: fetch with retries, run the callback with
      the metadata (or null when the fetch is rethrown), and pause 1000 ms
      after a fetch that resolved. The callbacks catch their own errors, so
      the catch branch is reached only by a failed fetch. */
  function RunTask(s: QueueState, task: Task, oracle: nat -> Attempt<GroupMetadata>): QueueState {
    var run := RetryFrom(Shift(oracle, s.fetchCalls), 0, MaxRetries, GroupMetadataDelay);
    match run.result
    case Returned(md) =>
      QueueState(Callback(s.tables, task.kind, md), s.fetchCalls + run.calls,
                 s.pauses + run.delays + [GroupMetadataDelay])
    case Threw(_) =>
      QueueState(s.tables, s.fetchCalls + run.calls, s.pauses + run.delays)
  }

  /** The drain of `tasks`, first to last. */
  function Drain(s: QueueState, tasks: seq<Task>, oracle: nat -> Attempt<GroupMetadata>): QueueState
    decreases |tasks|
  {
    if |tasks| == 0 then s else Drain(RunTask(s, tasks[0], oracle), tasks[1..], oracle)
  }

  /** FIFO: draining `a + b` drains all of `a` before any of `b`. */
  lemma {:induction false} DrainAppend(s: QueueState, a: seq<Task>, b: seq<Task>, oracle: nat -> Attempt<GroupMetadata>)
    ensures Drain(s, a + b, oracle) == Drain(Drain(s, a, oracle), b, oracle)
    decreases |a|
  {
    if |a| == 0 {
      assert a + b == b;
    } else {
      assert (a + b)[1..] == a[1..] + b;
      DrainAppend(RunTask(s, a[0], oracle), a[1..], b, oracle);
    }
  }

  /** Each task makes one to three fetches; a task whose fetch is rethrown
      saves nothing and is not followed by the 1000 ms pause; one whose fetch
      resolves is. */
  lemma TaskEffects(s: QueueState, task: Task, oracle: nat -> Attempt<GroupMetadata>)
    ensures var r := RunTask(s, task, oracle);
      var run := RetryFrom(Shift(oracle, s.fetchCalls), 0, MaxRetries, GroupMetadataDelay);
      && s.fetchCalls + 1 <= r.fetchCalls <= s.fetchCalls + MaxRetries
      && (run.result.Threw? ==> r.tables == s.tables && r.pauses == s.pauses + run.delays)
      && (run.result.Returned? ==> r.pauses == s.pauses + run.delays + [GroupMetadataDelay]
                                   && run.result.value.Some?)
  {
    RetryCalls(Shift(oracle, s.fetchCalls), 0, MaxRetries, GroupMetadataDelay);
  }

  /** The metadata queue and its `isProcessingQueue` flag, with the number of
      metadata fetches made so far and the sleeps taken, in order. */
  class MetadataQueue {
    var tasks: seq<Task>
    var running: bool
    var fetchCalls: nat
    var pauses: seq<int>

    constructor ()
      ensures tasks == [] && !running && fetchCalls == 0 && pauses == []
    {
      tasks := [];
      running := false;
      fetchCalls := 0;
      pauses := [];
    }

    /** `groupMetadataQueue.push(task)`. */
    method Enqueue(task: Task)
      modifies this`tasks
      ensures tasks == old(tasks) + [task]
    {
      tasks := tasks + [task];
    }

    /** The callback of a task. */
    static method RunCallback(db: Database, kind: TaskKind, md: Option<GroupMetadata>)
      requires db.Valid()
      modifies db`groups, db`contacts, db`participants
      ensures db.Valid()
      ensures TablesOf(db) == Callback(old(TablesOf(db)), kind, md)
    {
      if md.None? {
        return;
      }
      if kind == GroupsUpdateTask && !Truthy(md.value.id) {
        return;
      }
      var r := SaveGroupInfo(db, BuildGroupData(md.value));
    }

    /** `processGroupMetadataQueue()`: nothing while a drain is running or
      the queue is empty; otherwise the whole queue is drained in order and
      the flag is cleared. */
    method Process(db: Database, oracle: nat -> Attempt<GroupMetadata>)
      requires db.Valid()
      modifies this, db`groups, db`contacts, db`participants
      ensures db.Valid()
      ensures old(running) || old(tasks) == [] ==>
        && running == old(running) && tasks == old(tasks) && fetchCalls == old(fetchCalls)
        && pauses == old(pauses) && TablesOf(db) == old(TablesOf(db))
      ensures !old(running) && old(tasks) != [] ==>
        && !running && tasks == []
        && QueueState(TablesOf(db), fetchCalls, pauses)
           == Drain(QueueState(old(TablesOf(db)), old(fetchCalls), old(pauses)), old(tasks), oracle)
    {
      if running || |tasks| == 0 {
        return;
      }
      running := true;
      while |tasks| > 0
        invariant db.Valid()
        invariant running
        invariant Drain(QueueState(TablesOf(db), fetchCalls, pauses), tasks, oracle)
                  == Drain(QueueState(old(TablesOf(db)), old(fetchCalls), old(pauses)), old(tasks), oracle)
        decreases |tasks|
      {
        var task := tasks[0];
        tasks := tasks[1..];
        ghost var before := QueueState(TablesOf(db), fetchCalls, pauses);
        var result, calls, delays := RetryWithBackoff(Shift(oracle, fetchCalls), MaxRetries, GroupMetadataDelay);
        fetchCalls := fetchCalls + calls;
        pauses := pauses + delays;
        if result.Returned? {
          RunCallback(db, task.kind, result.value);
          pauses := pauses + [GroupMetadataDelay];
        } else {
          RunCallback(db, task.kind, None);
        }
        assert QueueState(TablesOf(db), fetchCalls, pauses) == RunTask(before, task, oracle);
      }
      running := false;
    }
  }

  // ================================================================ group events

  /** The tasks `groups.update` queues: one per entry with an id, in order. */
  function GroupsUpdateTasks(ids: seq<Option<string>>): (tasks: seq<Task>)
    ensures forall i :: 0 <= i < |tasks| ==> tasks[i].kind == GroupsUpdateTask && Truthy(tasks[i].groupId)
    ensures forall i :: 0 <= i < |ids| && Truthy(ids[i]) ==> Task(GroupsUpdateTask, ids[i]) in tasks
    decreases |ids|
  {
    if |ids| == 0 then []
    else
      var front := GroupsUpdateTasks(ids[..|ids| - 1]);
      assert forall i :: 0 <= i < |ids| - 1 ==> ids[..|ids| - 1][i] == ids[i];
      if Truthy(ids[|ids| - 1]) then front + [Task(GroupsUpdateTask, ids[|ids| - 1])] else front
  }

  /** Queueing the updates of `a + b` queues those of `a`, then those of `b`. */
  lemma {:induction false} GroupsUpdateTasksAppend(a: seq<Option<string>>, b: seq<Option<string>>)
    ensures GroupsUpdateTasks(a + b) == GroupsUpdateTasks(a) + GroupsUpdateTasks(b)
    decreases |b|
  {
    if |b| == 0 {
      assert a + b == a;
    } else {
      var b' := b[..|b| - 1];
      assert (a + b)[..|a + b| - 1] == a + b';
      assert (a + b)[|a + b| - 1] == b[|b| - 1];
      GroupsUpdateTasksAppend(a, b');
    }
  }

  /** A single entry queues one task for its id when the id is truthy and
      none otherwise. */
  lemma GroupsUpdateTasksOne(id: Option<string>)
    ensures GroupsUpdateTasks([id]) == if Truthy(id) then [Task(GroupsUpdateTask, id)] else []
  {
    assert [id][..0] == [];
  }

  /** `sock.ev.on('groups.update', …)` for the ids of the updated groups:
      queue a task per group with an id, then start the drain. */
  method OnGroupsUpdate(q: MetadataQueue, db: Database, ids: seq<Option<string>>,
                        oracle: nat -> Attempt<GroupMetadata>)
    requires db.Valid()
    modifies q, db`groups, db`contacts, db`participants
    ensures db.Valid()
    ensures var pending := old(q.tasks) + GroupsUpdateTasks(ids);
      if old(q.running) || pending == [] then
        q.tasks == pending && q.running == old(q.running) && TablesOf(db) == old(TablesOf(db))
        && q.fetchCalls == old(q.fetchCalls) && q.pauses == old(q.pauses)
      else
        !q.running && q.tasks == []
        && QueueState(TablesOf(db), q.fetchCalls, q.pauses)
           == Drain(QueueState(old(TablesOf(db)), old(q.fetchCalls), old(q.pauses)), pending, oracle)
  {
    QueueGroupsUpdate(q, ids);
    q.Process(db, oracle);
  }

  /** The loop of the `groups.update` handler: entries without an id are
      skipped, the others queued in order. */
  method QueueGroupsUpdate(q: MetadataQueue, ids: seq<Option<string>>)
    modifies q`tasks
    ensures q.tasks == old(q.tasks) + GroupsUpdateTasks(ids)
  {
    var i := 0;
    while i < |ids|
      invariant 0 <= i <= |ids|
      invariant q.tasks == old(q.tasks) + GroupsUpdateTasks(ids[..i])
    {
      assert ids[..i + 1][..i] == ids[..i];
      if Truthy(ids[i]) {
        q.Enqueue(Task(GroupsUpdateTask, ids[i]));
      }
      i := i + 1;
    }
    assert ids[..i] == ids;
  }

  /** `sock.ev.on('group-participants.update', …)`: queue one task for the
      group, whatever its id, then start the drain. */
  method OnParticipantsUpdate(q: MetadataQueue, db: Database, id: Option<string>,
                              oracle: nat -> Attempt<GroupMetadata>)
    requires db.Valid()
    modifies q, db`groups, db`contacts, db`participants
    ensures db.Valid()
    ensures var pending := old(q.tasks) + [Task(ParticipantsUpdateTask, id)];
      if old(q.running) then
        q.tasks == pending && q.running && TablesOf(db) == old(TablesOf(db))
        && q.fetchCalls == old(q.fetchCalls) && q.pauses == old(q.pauses)
      else
        !q.running && q.tasks == []
        && QueueState(TablesOf(db), q.fetchCalls, q.pauses)
           == Drain(QueueState(old(TablesOf(db)), old(q.fetchCalls), old(q.pauses)), pending, oracle)
  {
    q.Enqueue(Task(ParticipantsUpdateTask, id));
    q.Process(db, oracle);
  }

  // ================================================================ messages.reaction

  /** `reaction.reaction` of an indexed entry. */
  datatype ReactionBody = ReactionBody(
    text: Option<string>,
    senderTimestampMs: Option<NumField>,
    timestamp: Option<NumField>)

  /** `reactionData['0']`. */
  datatype IndexedReaction = IndexedReaction(key: Option<MessageKey>, reaction: Option<ReactionBody>)

  /** A `messages.reaction` payload: its '0' entry, if any, and the payload
      read as a flat reaction object. */
  datatype ReactionEvent = ReactionEvent(first: Option<IndexedReaction>, flat: Reaction)

  /** What the handler makes of a payload: the reaction handed on, or why
      none is. Calling `toNumber()` on a plain number throws a TypeError,
      which the handler catches. */
  datatype Reshaped = Standardized(reaction: Reaction) | PassedThrough(reaction: Reaction)
                    | MissingTimestamp | ToNumberFailed | UnknownShape

  /** The reaction object the handler builds from `{key, text, timestamp}`. */
  function StandardReaction(key: Option<MessageKey>, text: Option<string>, timestamp: NumField): Reaction {
    Reaction(key, text, None, None, Some(timestamp), None, None, None, None)
  }

  /** The reshaping of a `messages.reaction` payload. */
  function ReshapeReaction(e: ReactionEvent): (r: Reshaped)
    ensures r.Standardized? || r.MissingTimestamp? || r.ToNumberFailed? <==>
      e.first.Some? && e.first.value.key.Some? && e.first.value.reaction.Some?
    ensures r.PassedThrough? <==>
      !(e.first.Some? && e.first.value.key.Some? && e.first.value.reaction.Some?)
      && e.flat.key.Some? && Truthy(e.flat.text)
    ensures r.PassedThrough? ==> r.reaction == e.flat
    ensures r.Standardized? ==>
      var body := e.first.value.reaction.value;
      && r.reaction.key == e.first.value.key && r.reaction.text == body.text
      && r.reaction.timestamp.Some?
      && (body.senderTimestampMs.Some? && body.senderTimestampMs.value.Long? ==>
            r.reaction.timestamp == Some(Plain(body.senderTimestampMs.value.n)))
      && (!(body.senderTimestampMs.Some? && body.senderTimestampMs.value.IsTruthy()) ==>
            r.reaction.timestamp == body.timestamp)
      && r.reaction == StandardReaction(e.first.value.key, body.text, r.reaction.timestamp.value)
    ensures r.MissingTimestamp? <==>
      && e.first.Some? && e.first.value.key.Some? && e.first.value.reaction.Some?
      && var body := e.first.value.reaction.value;
      && !(body.senderTimestampMs.Some? && body.senderTimestampMs.value.IsTruthy())
      && !(body.timestamp.Some? && body.timestamp.value.IsTruthy())
    ensures r.ToNumberFailed? <==>
      && e.first.Some? && e.first.value.key.Some? && e.first.value.reaction.Some?
      && var ms := e.first.value.reaction.value.senderTimestampMs;
      && ms.Some? && ms.value.Plain? && ms.value.n != 0
  {
    if e.first.Some? && e.first.value.key.Some? && e.first.value.reaction.Some? then
      var entry := e.first.value;
      var body := entry.reaction.value;
      if body.senderTimestampMs.Some? && body.senderTimestampMs.value.IsTruthy() then
        match body.senderTimestampMs.value
        case Long(n) => Standardized(StandardReaction(entry.key, body.text, Plain(n)))
        case Plain(_) => ToNumberFailed
      else if body.timestamp.Some? && body.timestamp.value.IsTruthy() then
        Standardized(StandardReaction(entry.key, body.text, body.timestamp.value))
      else MissingTimestamp
    else if e.flat.key.Some? && Truthy(e.flat.text) then PassedThrough(e.flat)
    else UnknownShape
  }

  /** A `Long` sender timestamp of zero is still an object, so it is taken,
      but the zero it converts to is falsy and the reaction handler then
      rejects the reaction for want of a timestamp. */
  lemma ZeroLongTimestampRejected(e: ReactionEvent)
    requires e.first.Some? && e.first.value.key.Some? && e.first.value.reaction.Some?
    requires e.first.value.reaction.value.senderTimestampMs == Some(Long(0))
    requires Truthy(e.first.value.key.value.id) && Truthy(e.first.value.reaction.value.text)
    ensures ReshapeReaction(e).Standardized?
    ensures CheckReaction(Some(ReshapeReaction(e).reaction)) == Rejected(NoTimestamp)
  {
    var r := ReshapeReaction(e).reaction;
    assert HasTextField(r);
    assert TimestampFields(r) == [Some(Plain(0)), None, None, None];
  }

  /** The rows a reshaped payload adds to `message_reactions`. */
  function ReshapedRows(r: Reshaped): seq<ReactionRow> {
    if r.Standardized? || r.PassedThrough? then
      match CheckReaction(Some(r.reaction))
      case Accepted(row) => [row]
      case Rejected(_) => []
    else []
  }

  /** `sock.ev.on('messages.reaction', …)`. */
  method OnReaction(db: Database, e: ReactionEvent)
    modifies db`reactions
    ensures db.reactions == old(db.reactions) + ReshapedRows(ReshapeReaction(e))
  {
    var r := ReshapeReaction(e);
    if r.Standardized? || r.PassedThrough? {
      HandleReactionUpdate(db, Some(r.reaction));
    }
  }
}
