/** The storage adapter as a mutable object, and the recorder's write loop over it (activity/recorder.py). */
module ActivityRecorder {
  import opened Common
  import opened ActivityChain
  import opened ActivityStorage
  import opened ActivityLog
  import opened ActivityLogSafety
  import opened ActivitySchedule

  class StorageAdapter {
    const lib: Library
    const trigger: bool
    var rows: seq<Row>
    var interactions: map<string, Json>
    var related: map<RelatedKey, Json>

    constructor (lib: Library, trigger: bool)
      ensures this.lib == lib && this.trigger == trigger
      ensures Contents() == Db([], map[], map[])
    {
      this.lib, this.trigger := lib, trigger;
      rows, interactions, related := [], map[], map[];
    }

    function Contents(): Db
      reads this
    {
      Db(rows, interactions, related)
    }

    method WriteInteractionRecord(interaction: Interaction) returns (outcome: WriteOutcome)
      modifies this`interactions
      ensures (Contents(), outcome) == Perform(lib, trigger, old(Contents()), InteractionWrite(interaction))
    {
      if interaction.id !in interactions {
        interactions := interactions[interaction.id := interaction.content];
        return Created;
      }
      if interactions[interaction.id] != interaction.content {
        return Conflict;
      }
      return if trigger then TriggerRejected else AlreadyStored;
    }

    method WriteActivityRecord(row: Row) returns (outcome: WriteOutcome)
      modifies this`rows
      ensures (Contents(), outcome) == Perform(lib, trigger, old(Contents()), ActivityWrite(row))
    {
      if !HasRequired(row.record) {
        return MissingField;
      }
      if !ServerTakes(lib, row.record) {
        return Refused;
      }
      var incoming := StoredRow(lib, row);
      var found := Find(rows, Get(incoming.record, ActivityId));
      if found.Some? {
        if !SameContent(lib, found.value.record, incoming.record) {
          return Conflict;
        }
        return if trigger then TriggerRejected else AlreadyStored;
      }
      if Occupied(rows, row.chainKey, row.chainSeq) {
        return PositionTaken;
      }
      rows := rows + [incoming];
      return Created;
    }

    method WriteRelated(key: RelatedKey, content: Json) returns (outcome: WriteOutcome)
      modifies this`related
      ensures (Contents(), outcome) == Perform(lib, trigger, old(Contents()), RelatedWrite(key, content))
    {
      if key !in related {
        related := related[key := content];
        return Created;
      }
      if related[key] != content {
        return Conflict;
      }
      return if trigger then TriggerRejected else AlreadyStored;
    }

    /** The row of the key with the largest chain_seq, found by scanning the table once. */
    method GetActivityChainHead(key: string) returns (head: Option<ChainHead>)
      ensures head == HeadOf(rows, key)
    {
      head := None;
      var i := 0;
      while i < |rows|
        invariant 0 <= i <= |rows|
        invariant head == HeadOf(rows[..i], key)
      {
        HeadAdvances(rows, key, i);
        if rows[i].chainKey == key && (head.None? || rows[i].chainSeq >= head.value.chainSeq) {
          head := Some(ChainHead(rows[i].chainSeq, rows[i].recordHash));
        }
        i := i + 1;
      }
      assert rows[..i] == rows;
    }

    method VerifyActivityChain(key: string) returns (r: Verification)
      ensures Reports(lib, key, FetchChain(rows, key), r)
    {
      r := VerifyActivityChainRows(lib, FetchChain(rows, key), key);
    }

    /** Other writers' statements reaching the database while this one waits. */
    method Interleave(arrivals: seq<Write>)
      requires TableOk(rows)
      modifies this
      ensures Contents() == Arrived(lib, trigger, old(Contents()), arrivals)
      ensures TableOk(rows) && Grows(old(Contents()), Contents())
    {
      for i := 0 to |arrivals|
        invariant Contents() == Arrived(lib, trigger, old(Contents()), arrivals[..i])
        invariant TableOk(rows) && Grows(old(Contents()), Contents())
      {
        assert arrivals[..i + 1][..i] == arrivals[..i];
        if WriteOk(rows, arrivals[i]) {
          PerformKeeps(lib, trigger, Contents(), arrivals[i]);
          var ignored := Execute(arrivals[i]);
        }
      }
      assert arrivals[..|arrivals|] == arrivals;
    }

    method Execute(write: Write) returns (outcome: WriteOutcome)
      modifies this
      ensures (Contents(), outcome) == Perform(lib, trigger, old(Contents()), write)
    {
      match write
      case InteractionWrite(interaction) => outcome := WriteInteractionRecord(interaction);
      case ActivityWrite(row) => outcome := WriteActivityRecord(row);
      case RelatedWrite(key, content) => outcome := WriteRelated(key, content);
    }
  }

  /** Looking at one more row changes the head only if that row is of the key and not below it. */
  lemma HeadAdvances(rows: seq<Row>, key: string, i: nat)
    requires i < |rows|
    ensures var head := HeadOf(rows[..i], key);
      HeadOf(rows[..i + 1], key)
        == if rows[i].chainKey == key && (head.None? || rows[i].chainSeq >= head.value.chainSeq)
           then Some(ChainHead(rows[i].chainSeq, rows[i].recordHash)) else head
  {
    assert rows[..i + 1] == rows[..i] + [rows[i]];
    ChainRowsAppend(rows[..i], rows[i], key);
    var chain := ChainRows(rows[..i], key);
    if rows[i].chainKey == key {
      assert (chain + [rows[i]])[..|chain|] == chain;
    } else {
      assert ChainRows(rows[..i + 1], key) == chain;
    }
  }

  class Recorder {
    const storage: StorageAdapter
    const maxAttempts: nat

    constructor (storage: StorageAdapter, maxAttempts: nat)
      requires maxAttempts >= 1
      ensures this.storage == storage && this.maxAttempts == maxAttempts
    {
      this.storage, this.maxAttempts := storage, maxAttempts;
    }

    ghost predicate Ready()
      reads storage
    {
      TableOk(storage.rows)
    }

    /** Where the recorder ends up from here, by its specification. */
    ghost function Course(schedule: Schedule, writer: Writer): (Db, Writer)
      reads storage
    {
      Drive(storage.lib, storage.trigger, schedule, storage.Contents(), writer)
    }

    ghost predicate Takes(job: Job) {
      job.maxAttempts == maxAttempts
    }

    /** One awaited write: true only if the statement succeeded and its acknowledgement arrived. */
    method AwaitWrite(write: Write, moment: Moment) returns (ok: bool)
      requires Ready() && WriteOk(storage.rows, write)
      modifies storage
      ensures (storage.Contents(), ok) == Called(storage.lib, storage.trigger, old(storage.Contents()), write, moment)
      ensures Ready() && Grows(old(storage.Contents()), storage.Contents())
      ensures ok ==> Landed(storage.lib, storage.Contents(), write)
    {
      ghost var start := storage.Contents();
      storage.Interleave(moment.arrivals);
      ghost var before := storage.Contents();
      GrowthKeepsWrite(storage.lib, start, before, write);
      PerformKeeps(storage.lib, storage.trigger, before, write);
      ok := false;
      if moment.fate != LostBeforeCommit {
        var outcome := storage.Execute(write);
        ok := moment.fate == Answered && outcome.Succeeded();
      }
    }

    /** _ensure_activity_interaction: nothing to do without an interaction. */
    method EnsureActivityInteraction(job: Job, attempt: nat, schedule: Schedule) returns (ok: bool)
      requires Ready() && Takes(job)
      modifies storage
      ensures Ready() && Grows(old(storage.Contents()), storage.Contents())
      ensures ok ==> InteractionStored(storage.Contents(), job)
      ensures old(Course(schedule, Writer(job, Ensuring, attempt)))
        == Course(schedule, if ok then Writer(job, ReadingHead, attempt) else Failed(job, attempt))
    {
      ok := true;
      QuietTurns(storage.lib, storage.trigger, schedule, storage.Contents(), job, attempt);
      if job.interaction.Some? {
        WriteTurn(storage.lib, storage.trigger, schedule, storage.Contents(), Writer(job, Ensuring, attempt),
          InteractionWrite(job.interaction.value));
        ok := AwaitWrite(InteractionWrite(job.interaction.value), schedule(attempt, 0));
      }
    }

    /** _chain_activity_record: the head is read anew for every attempt, and the record placed after it. */
    method ChainActivityRecord(job: Job, attempt: nat, schedule: Schedule) returns (row: Option<Row>)
      requires Ready() && Takes(job)
      modifies storage
      ensures Ready() && Grows(old(storage.Contents()), storage.Contents())
      ensures row.Some? ==> Pending(storage.rows, row.value) && row.value.record == job.record
      ensures old(Course(schedule, Writer(job, ReadingHead, attempt)))
        == Course(schedule, if row.Some? then Writer(job, Inserting(row.value), attempt) else Failed(job, attempt))
    {
      HeadTurn(storage.lib, storage.trigger, schedule, storage.Contents(), job, attempt);
      var moment := schedule(attempt, 1);
      storage.Interleave(moment.arrivals);
      if moment.fate != Answered {
        return None;
      }
      var head := storage.GetActivityChainHead(ChainKeyFor(job.record));
      ChainedIsPending(storage.lib, storage.rows, job.record);
      row := Some(Chained(storage.lib, job.record, head));
    }

    method WriteRow(job: Job, attempt: nat, row: Row, schedule: Schedule) returns (ok: bool)
      requires Ready() && Takes(job) && Pending(storage.rows, row) && row.record == job.record
      modifies storage
      ensures Ready() && Grows(old(storage.Contents()), storage.Contents())
      ensures ok ==> RecordStored(storage.lib, storage.rows, job.record)
      ensures old(Course(schedule, Writer(job, Inserting(row), attempt)))
        == Course(schedule, if ok then Related(job, attempt, 0) else Failed(job, attempt))
    {
      WriteTurn(storage.lib, storage.trigger, schedule, storage.Contents(), Writer(job, Inserting(row), attempt),
        ActivityWrite(row));
      ok := AwaitWrite(ActivityWrite(row), schedule(attempt, 2));
    }

    /** The activity row of one attempt, placed after a freshly read head. */
    method WriteChained(job: Job, attempt: nat, schedule: Schedule) returns (ok: bool)
      requires Ready() && Takes(job)
      modifies storage
      ensures Ready() && Grows(old(storage.Contents()), storage.Contents())
      ensures ok ==> RecordStored(storage.lib, storage.rows, job.record)
      ensures old(Course(schedule, Writer(job, ReadingHead, attempt)))
        == Course(schedule, if ok then Related(job, attempt, 0) else Failed(job, attempt))
    {
      var row := ChainActivityRecord(job, attempt, schedule);
      if row.None? {
        return false;
      }
      ok := WriteRow(job, attempt, row.value, schedule);
    }

    method WriteRelatedRow(job: Job, attempt: nat, i: nat, schedule: Schedule) returns (ok: bool)
      requires Ready() && i < |job.items|
      modifies storage
      ensures Ready() && Grows(old(storage.Contents()), storage.Contents())
      ensures ok ==> Landed(storage.lib, storage.Contents(),
        RelatedWrite(ItemKey(0, attempt, job, i), job.items[i].content))
      ensures old(Course(schedule, Related(job, attempt, i)))
        == Course(schedule, if ok then Related(job, attempt, i + 1) else Failed(job, attempt))
    {
      if !job.items[i].buildable {
        QuietTurns(storage.lib, storage.trigger, schedule, storage.Contents(), job, attempt);
        return false;
      }
      var write := RelatedWrite(ItemKey(0, attempt, job, i), job.items[i].content);
      WriteTurn(storage.lib, storage.trigger, schedule, storage.Contents(), Related(job, attempt, i), write);
      ok := AwaitWrite(write, schedule(attempt, 3 + i));
    }

    /** The related rows in order, stopping at the first that fails; `written` never overstates. */
    method WriteRelatedRows(job: Job, attempt: nat, schedule: Schedule) returns (written: nat)
      requires Ready()
      modifies storage
      ensures Ready() && Grows(old(storage.Contents()), storage.Contents())
      ensures written <= |job.items|
      ensures ItemsStored(storage.Contents(), 0, Writer(job, Accepted, attempt), written)
      ensures old(Course(schedule, Related(job, attempt, 0)))
        == Course(schedule, if written == |job.items| then Writer(job, Accepted, attempt) else Failed(job, attempt))
    {
      written := 0;
      while written < |job.items|
        invariant written <= |job.items|
        invariant Ready() && Grows(old(storage.Contents()), storage.Contents())
        invariant ItemsStored(storage.Contents(), 0, Writer(job, Accepted, attempt), written)
        invariant old(Course(schedule, Related(job, attempt, 0))) == Course(schedule, Related(job, attempt, written))
      {
        ghost var before := storage.Contents();
        var stored := WriteRelatedRow(job, attempt, written, schedule);
        ItemsStayStored(before, storage.Contents(), job, attempt, written);
        if !stored {
          return;
        }
        written := written + 1;
      }
    }

    /**
      One attempt at a whole package. On failure it still reports truthfully how far it came:
      whether the activity row was acknowledged, and how many related rows were.
     */
    method WriteActivityOnce(job: Job, attempt: nat, schedule: Schedule)
      returns (ok: bool, activityWritten: bool, relatedWritten: nat)
      requires Ready() && Takes(job)
      modifies storage
      ensures Ready() && Grows(old(storage.Contents()), storage.Contents())
      ensures ok ==> Complete(storage.lib, storage.Contents(), 0, Writer(job, Accepted, attempt))
      ensures activityWritten ==> RecordStored(storage.lib, storage.rows, job.record)
      ensures relatedWritten <= |job.items|
      ensures ItemsStored(storage.Contents(), 0, Writer(job, Accepted, attempt), relatedWritten)
      ensures old(Course(schedule, Writer(job, Ensuring, attempt)))
        == Course(schedule, if ok then Writer(job, Accepted, attempt) else Failed(job, attempt))
    {
      ok, activityWritten, relatedWritten := false, false, 0;
      var ensured := EnsureActivityInteraction(job, attempt, schedule);
      if !ensured {
        return;
      }
      activityWritten := WriteChained(job, attempt, schedule);
      if !activityWritten {
        return;
      }
      ghost var written := storage.rows;
      relatedWritten := WriteRelatedRows(job, attempt, schedule);
      RecordStaysStored(storage.lib, written, storage.rows, job.record);
      ok := relatedWritten == |job.items|;
    }

    /**
      Bounded retry: the recorder ends exactly where its specification does, accepted on the first attempt
      that completes and rejected only after the last one failed.
     */
    method WriteActivityWithRetry(job: Job, schedule: Schedule) returns (accepted: bool, attempts: nat)
      requires maxAttempts >= 1
      requires Ready() && Takes(job)
      modifies storage
      ensures Ready() && Grows(old(storage.Contents()), storage.Contents())
      ensures 1 <= attempts <= maxAttempts
      ensures accepted ==> Complete(storage.lib, storage.Contents(), 0, Writer(job, Accepted, attempts))
      ensures !accepted ==> attempts == maxAttempts
      ensures old(Course(schedule, Writer(job, Ensuring, 1)))
        == (storage.Contents(), Writer(job, if accepted then Accepted else Rejected, attempts))
    {
      attempts := 1;
      while true
        invariant 1 <= attempts <= maxAttempts
        invariant Ready() && Grows(old(storage.Contents()), storage.Contents())
        invariant old(Course(schedule, Writer(job, Ensuring, 1))) == Course(schedule, Writer(job, Ensuring, attempts))
        decreases maxAttempts - attempts
      {
        var ok, written, related := WriteActivityOnce(job, attempts, schedule);
        if ok {
          return true, attempts;
        }
        if attempts == maxAttempts {
          return false, attempts;
        }
        attempts := attempts + 1;
      }
    }
  }

  lemma ItemsStayStored(a: Db, b: Db, job: Job, attempt: nat, n: nat)
    requires Grows(a, b) && n <= |job.items| && ItemsStored(a, 0, Writer(job, Accepted, attempt), n)
    ensures ItemsStored(b, 0, Writer(job, Accepted, attempt), n)
  {}

  lemma RecordStaysStored(lib: Library, a: seq<Row>, b: seq<Row>, record: Record)
    requires a <= b && RecordStored(lib, a, record)
    ensures RecordStored(lib, b, record)
  {
    var row :| row in a && Agrees(lib, row.record, StoredRecord(lib, record));
    assert row in b;
  }
}
