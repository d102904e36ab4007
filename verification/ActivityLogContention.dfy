/** How many attempts a writer can need when its only adversaries are other writers and lost calls. */
module ActivityLogContention {
  import opened Common
  import opened ActivityChain
  import opened ActivityStorage
  import opened ActivityLog
  import opened ActivityLogSafety

  /** One content for every key: what all packages and the stored rows agree on. */
  datatype Wanted = Wanted(interaction: string -> Json, related: RelatedKey -> Json)

  function StoredId(lib: Library, writer: Writer): Value {
    Get(StoredRecord(lib, writer.job.record), ActivityId)
  }

  ghost predicate JobAgrees(lib: Library, want: Wanted, w: nat, job: Job) {
    && HasRequired(job.record) && ServerTakes(lib, job.record)
    && (job.interaction.Some? ==> want.interaction(job.interaction.value.id) == job.interaction.value.content)
    && (forall i :: 0 <= i < |job.items| ==> job.items[i].buildable)
    && (forall i, attempt :: 0 <= i < |job.items| ==>
          want.related(ItemKey(w, attempt, job, i)) == job.items[i].content)
  }

  /** The writers record distinct new activities, and no two packages disagree about a shared row. */
  ghost predicate NoConflicts(lib: Library, want: Wanted, s: State) {
    && (forall w :: 0 <= w < |s.writers| ==> JobAgrees(lib, want, w, s.writers[w].job))
    && (forall v, w :: 0 <= v < w < |s.writers| ==> StoredId(lib, s.writers[v]) != StoredId(lib, s.writers[w]))
    && (forall w :: 0 <= w < |s.writers| ==> !IdStored(lib, s.db.rows, s.writers[w].job.record))
    && (forall k :: k in s.db.interactions ==> s.db.interactions[k] == want.interaction(k))
    && (forall k :: k in s.db.related ==> s.db.related[k] == want.related(k))
  }

  /** The ids that compete for positions on one chain. */
  ghost function Contenders(lib: Library, s: State, key: string): set<Value> {
    set w | 0 <= w < |s.writers| && ChainKeyFor(s.writers[w].job.record) == key :: StoredId(lib, s.writers[w])
  }

  ghost predicate HasId(rows: seq<Row>, id: Value) {
    exists row :: row in rows && Get(row.record, ActivityId) == id
  }

  ghost function Committed(lib: Library, s0: State, rows: seq<Row>, key: string): set<Value> {
    set id | id in Contenders(lib, s0, key) && HasId(rows, id)
  }

  /** The unacknowledged calls of one writer in a run. */
  function Losses(events: seq<Event>, w: nat): nat {
    if events == [] then 0
    else Losses(events[..|events| - 1], w) + if events[|events| - 1] == Advance(w, Lost) then 1 else 0
  }

  function StepsOf(events: seq<Event>, w: nat): nat {
    if events == [] then 0
    else
      var last := events[|events| - 1];
      StepsOf(events[..|events| - 1], w) + if last.Advance? && last.writer == w then 1 else 0
  }

  // ---- What a race keeps ----

  ghost predicate WriteAgrees(want: Wanted, s0: State, write: Write) {
    match write
    case InteractionWrite(interaction) => want.interaction(interaction.id) == interaction.content
    case RelatedWrite(key, content) => want.related(key) == content
    case ActivityWrite(row) =>
      exists v :: 0 <= v < |s0.writers| && row.record == s0.writers[v].job.record
        && row.chainKey == ChainKeyFor(row.record)
  }

  ghost predicate RowsAgree(lib: Library, s0: State, rows: seq<Row>) {
    forall w, row :: 0 <= w < |s0.writers| && row in rows && Get(row.record, ActivityId) == StoredId(lib, s0.writers[w])
      ==> Agrees(lib, row.record, StoredRecord(lib, s0.writers[w].job.record))
  }

  ghost predicate DbAgrees(lib: Library, want: Wanted, s0: State, db: Db) {
    && (forall k :: k in db.interactions ==> db.interactions[k] == want.interaction(k))
    && (forall k :: k in db.related ==> db.related[k] == want.related(k))
    && RowsAgree(lib, s0, db.rows)
    && CountsAgree(lib, s0, db.rows)
  }

  ghost predicate CountAgrees(lib: Library, s0: State, rows: seq<Row>, key: string) {
    |ChainRows(rows, key)| <= |ChainRows(s0.db.rows, key)| + |Committed(lib, s0, rows, key)|
  }

  /** No chain has grown by more rows than contenders have committed. */
  ghost predicate CountsAgree(lib: Library, s0: State, rows: seq<Row>) {
    forall key :: CountAgrees(lib, s0, rows, key)
  }

  /** Without disagreement, a write can fail only because its chain position was taken. */
  lemma OnlyPositionsFail(lib: Library, want: Wanted, s0: State, db: Db, write: Write)
    requires NoConflicts(lib, want, s0) && DbAgrees(lib, want, s0, db) && WriteAgrees(want, s0, write)
    ensures var outcome := Perform(lib, false, db, write).1;
      outcome.Succeeded() || (outcome == PositionTaken && write.ActivityWrite?
                              && !IdStored(lib, db.rows, write.row.record)
                              && Occupied(db.rows, write.row.chainKey, write.row.chainSeq))
  {
    if write.ActivityWrite? {
      var id := Get(StoredRecord(lib, write.row.record), ActivityId);
      FindIsMember(db.rows, id);
      var v :| 0 <= v < |s0.writers| && write.row.record == s0.writers[v].job.record;
      assert JobAgrees(lib, want, v, s0.writers[v].job);
      assert id == StoredId(lib, s0.writers[v]);
    }
  }

  /** A newly stored row is one more committed contender of its chain, and of no other. */
  lemma CommitCounts(lib: Library, want: Wanted, s0: State, rows: seq<Row>, row: Row, key: string, v: nat)
    requires NoConflicts(lib, want, s0) && v < |s0.writers|
    requires row.record == s0.writers[v].job.record && row.chainKey == ChainKeyFor(row.record)
    requires !HasId(rows, StoredId(lib, s0.writers[v]))
    ensures |Committed(lib, s0, rows + [StoredRow(lib, row)], key)|
         == |Committed(lib, s0, rows, key)| + if row.chainKey == key then 1 else 0
  {
    var id := StoredId(lib, s0.writers[v]);
    var longer := rows + [StoredRow(lib, row)];
    assert longer[|rows|] in longer;
    forall other
      ensures HasId(longer, other) <==> HasId(rows, other) || other == id
    {
      if HasId(rows, other) {
        var held :| held in rows && Get(held.record, ActivityId) == other;
        assert held in longer;
      }
    }
    if row.chainKey == key {
      assert id in Contenders(lib, s0, key);
      assert Committed(lib, s0, longer, key) == Committed(lib, s0, rows, key) + {id};
    } else {
      assert id !in Contenders(lib, s0, key);
      assert Committed(lib, s0, longer, key) == Committed(lib, s0, rows, key);
    }
  }

  lemma AppendAgrees(lib: Library, want: Wanted, s0: State, rows: seq<Row>, row: Row, v: nat)
    requires NoConflicts(lib, want, s0) && v < |s0.writers| && RowsAgree(lib, s0, rows)
    requires row.record == s0.writers[v].job.record
    ensures RowsAgree(lib, s0, rows + [StoredRow(lib, row)])
  {
    var stored := StoredRow(lib, row);
    forall w, held | 0 <= w < |s0.writers| && held in rows + [stored]
      && Get(held.record, ActivityId) == StoredId(lib, s0.writers[w])
      ensures Agrees(lib, held.record, StoredRecord(lib, s0.writers[w].job.record))
    {
      if held !in rows {
        assert held == stored && w == v;
      }
    }
  }

  lemma AppendCounts(lib: Library, want: Wanted, s0: State, rows: seq<Row>, row: Row, v: nat, key: string)
    requires NoConflicts(lib, want, s0) && v < |s0.writers|
    requires row.record == s0.writers[v].job.record && row.chainKey == ChainKeyFor(row.record)
    requires !HasId(rows, StoredId(lib, s0.writers[v]))
    requires CountAgrees(lib, s0, rows, key)
    ensures CountAgrees(lib, s0, rows + [StoredRow(lib, row)], key)
  {
    CommitCounts(lib, want, s0, rows, row, key, v);
    ChainRowsAppend(rows, StoredRow(lib, row), key);
  }

  lemma CommitAgrees(lib: Library, want: Wanted, s0: State, rows: seq<Row>, row: Row, v: nat)
    requires NoConflicts(lib, want, s0) && RowsAgree(lib, s0, rows) && CountsAgree(lib, s0, rows) && v < |s0.writers|
    requires row.record == s0.writers[v].job.record && row.chainKey == ChainKeyFor(row.record)
    requires !HasId(rows, StoredId(lib, s0.writers[v]))
    ensures RowsAgree(lib, s0, rows + [StoredRow(lib, row)]) && CountsAgree(lib, s0, rows + [StoredRow(lib, row)])
  {
    AppendAgrees(lib, want, s0, rows, row, v);
    forall key
      ensures CountAgrees(lib, s0, rows + [StoredRow(lib, row)], key)
    {
      AppendCounts(lib, want, s0, rows, row, v, key);
    }
  }

  lemma InsertAgrees(lib: Library, trigger: bool, want: Wanted, s0: State, rows: seq<Row>, row: Row)
    requires NoConflicts(lib, want, s0) && RowsAgree(lib, s0, rows) && CountsAgree(lib, s0, rows)
    requires WriteAgrees(want, s0, ActivityWrite(row))
    ensures var after := InsertActivity(lib, rows, row, trigger).0;
      RowsAgree(lib, s0, after) && CountsAgree(lib, s0, after)
  {
    var v :| 0 <= v < |s0.writers| && row.record == s0.writers[v].job.record && row.chainKey == ChainKeyFor(row.record);
    FindIsMember(rows, StoredId(lib, s0.writers[v]));
    if InsertActivity(lib, rows, row, trigger).1 == Created {
      CommitAgrees(lib, want, s0, rows, row, v);
    }
  }

  lemma PerformAgrees(lib: Library, trigger: bool, want: Wanted, s0: State, db: Db, write: Write)
    requires NoConflicts(lib, want, s0) && DbAgrees(lib, want, s0, db) && WriteAgrees(want, s0, write)
    ensures DbAgrees(lib, want, s0, Perform(lib, trigger, db, write).0)
  {
    if write.ActivityWrite? {
      InsertAgrees(lib, trigger, want, s0, db.rows, write.row);
    }
  }

  /** While a contender is missing, its chain has grown by fewer rows than there are contenders. */
  lemma MissingContenderBounds(lib: Library, want: Wanted, s0: State, db: Db, w: nat)
    requires DbAgrees(lib, want, s0, db) && w < |s0.writers| && !IdStored(lib, db.rows, s0.writers[w].job.record)
    ensures var key := ChainKeyFor(s0.writers[w].job.record);
      |ChainRows(db.rows, key)| < |ChainRows(s0.db.rows, key)| + |Contenders(lib, s0, key)|
  {
    var key := ChainKeyFor(s0.writers[w].job.record);
    var id := StoredId(lib, s0.writers[w]);
    assert CountAgrees(lib, s0, db.rows, key);
    assert id in Contenders(lib, s0, key) && id !in Committed(lib, s0, db.rows, key);
    SubsetCard(Committed(lib, s0, db.rows, key), Contenders(lib, s0, key) - {id});
  }

  lemma {:induction false} SubsetCard<T>(a: set<T>, b: set<T>)
    requires a <= b
    ensures |a| <= |b|
  {
    if a != {} {
      var x :| x in a;
      SubsetCard(a - {x}, b - {x});
    }
  }

  function Failures(writer: Writer): int {
    if writer.phase.Rejected? then writer.attempt else writer.attempt - 1
  }

  /** How far down the chain the current attempt has looked. */
  function Seen(rows: seq<Row>, writer: Writer): int {
    if writer.phase.Inserting? then writer.phase.row.chainSeq - 1 else |ChainRows(rows, ChainKeyFor(writer.job.record))|
  }

  ghost predicate Bounded(lib: Library, s0: State, db: Db, writer: Writer, losses: nat) {
    var key := ChainKeyFor(writer.job.record);
    && Failures(writer) < losses + |Contenders(lib, s0, key)|
    && (!IdStored(lib, db.rows, writer.job.record) ==>
          Failures(writer) + |ChainRows(s0.db.rows, key)| <= losses + Seen(db.rows, writer))
    && (writer.phase.Rejected? ==> writer.attempt >= writer.job.maxAttempts)
  }

  /** A writer that stood still stays bounded while the database grows. */
  lemma GrowthKeepsBound(lib: Library, s0: State, a: Db, b: Db, writer: Writer, losses: nat)
    requires Grows(a, b) && Bounded(lib, s0, a, writer, losses)
    ensures Bounded(lib, s0, b, writer, losses)
  {
    ChainRowsGrow(a.rows, b.rows, ChainKeyFor(writer.job.record));
    if IdStored(lib, a.rows, writer.job.record) {
      IdStaysStored(lib, a.rows, b.rows, writer.job.record);
    }
  }

  /** A success never counts as a failure; past the insert the activity is stored. */
  lemma SuccessBounded(lib: Library, s0: State, db: Db, w: nat, writer: Writer, write: Write, losses: nat)
    requires TableOk(db.rows) && WriterOk(lib, db, w, writer)
    requires Bounded(lib, s0, db, writer, losses) && NextWrite(w, writer) == Some(write)
    requires Perform(lib, false, db, write).1.Succeeded()
    ensures Bounded(lib, s0, Perform(lib, false, db, write).0, AfterSuccess(writer), losses)
  {
    var after := Perform(lib, false, db, write).0;
    NextWriteOk(lib, db, w, writer);
    PerformKeeps(lib, false, db, write);
    GrowthKeepsBound(lib, s0, db, after, writer, losses);
    if writer.phase.Inserting? {
      StoredHasId(lib, after.rows, writer.job.record);
    }
  }

  /** A position that was taken means the chain has outgrown what this attempt saw. */
  lemma TakenBounded(lib: Library, want: Wanted, s0: State, db: Db, w: nat, writer: Writer, losses: nat)
    requires TableOk(db.rows) && WriterOk(lib, db, w, writer)
    requires DbAgrees(lib, want, s0, db)
    requires w < |s0.writers| && writer.job == s0.writers[w].job
    requires Bounded(lib, s0, db, writer, losses) && writer.phase.Inserting?
    requires !IdStored(lib, db.rows, writer.job.record)
    requires Occupied(db.rows, writer.phase.row.chainKey, writer.phase.row.chainSeq)
    ensures Bounded(lib, s0, db, AfterFailure(writer), losses)
  {
    FreeMeansNext(db.rows, writer.phase.row);
    MissingContenderBounds(lib, want, s0, db, w);
  }

  lemma FailureMeansTaken(lib: Library, want: Wanted, s0: State, db: Db, w: nat, writer: Writer, write: Write)
    requires WriterOk(lib, db, w, writer)
    requires NoConflicts(lib, want, s0) && DbAgrees(lib, want, s0, db)
    requires w < |s0.writers| && writer.job == s0.writers[w].job && NextWrite(w, writer) == Some(write)
    requires !Perform(lib, false, db, write).1.Succeeded()
    ensures writer.phase.Inserting? && Perform(lib, false, db, write).0 == db
    ensures !IdStored(lib, db.rows, writer.job.record)
    ensures Occupied(db.rows, writer.phase.row.chainKey, writer.phase.row.chainSeq)
  {
    OwnWriteAgrees(want, s0, lib, db, w, writer);
    OnlyPositionsFail(lib, want, s0, db, write);
  }

  /** An acknowledged write either moves its writer on, or its position went to a commit it had not seen. */
  lemma AcknowledgedBounded(lib: Library, want: Wanted, s0: State, db: Db, w: nat, writer: Writer, write: Write,
                            losses: nat)
    requires TableOk(db.rows) && WriterOk(lib, db, w, writer)
    requires NoConflicts(lib, want, s0) && DbAgrees(lib, want, s0, db)
    requires w < |s0.writers| && writer.job == s0.writers[w].job
    requires Bounded(lib, s0, db, writer, losses) && NextWrite(w, writer) == Some(write)
    ensures var (after, outcome) := Perform(lib, false, db, write);
      Bounded(lib, s0, after, if outcome.Succeeded() then AfterSuccess(writer) else AfterFailure(writer), losses)
  {
    if Perform(lib, false, db, write).1.Succeeded() {
      SuccessBounded(lib, s0, db, w, writer, write, losses);
    } else {
      FailureMeansTaken(lib, want, s0, db, w, writer, write);
      TakenBounded(lib, want, s0, db, w, writer, losses);
    }
  }

  lemma StoredHasId(lib: Library, rows: seq<Row>, record: Record)
    requires RecordStored(lib, rows, record)
    ensures IdStored(lib, rows, record)
  {
    var row :| row in rows && Agrees(lib, row.record, StoredRecord(lib, record));
    assert Get(row.record, ActivityId) == Get(StoredRecord(lib, record), ActivityId);
  }

  /** The moving writer: a lost call is charged to its losses, a taken position to another writer's commit. */
  lemma StepperBounded(lib: Library, want: Wanted, s0: State, db: Db, w: nat, writer: Writer, fate: Fate, losses: nat)
    requires TableOk(db.rows) && WriterOk(lib, db, w, writer)
    requires NoConflicts(lib, want, s0) && DbAgrees(lib, want, s0, db)
    requires w < |s0.writers| && writer.job == s0.writers[w].job
    requires Bounded(lib, s0, db, writer, losses)
    ensures var effect := Stepped(lib, false, db, w, writer, fate);
      Bounded(lib, s0, effect.db, effect.writer, losses + if fate == Lost then 1 else 0)
  {
    if NextWrite(w, writer).Some? && fate == Acknowledged {
      AcknowledgedBounded(lib, want, s0, db, w, writer, NextWrite(w, writer).value, losses);
    } else {
      assert JobAgrees(lib, want, w, writer.job);
      UnacknowledgedBounded(lib, want, s0, db, w, writer, fate, losses);
    }
  }

  /** Without an acknowledged write the database stays: the head was read, the call was lost, or nothing was awaited. */
  lemma UnacknowledgedBounded(lib: Library, want: Wanted, s0: State, db: Db, w: nat, writer: Writer, fate: Fate,
                              losses: nat)
    requires TableOk(db.rows) && WriterOk(lib, db, w, writer) && JobAgrees(lib, want, w, writer.job)
    requires Bounded(lib, s0, db, writer, losses)
    requires NextWrite(w, writer).None? || fate == Lost
    ensures var effect := Stepped(lib, false, db, w, writer, fate);
      effect.db == db && Bounded(lib, s0, db, effect.writer, losses + if fate == Lost then 1 else 0)
  {
    if writer.phase.Inserting? {
      var key := ChainKeyFor(writer.job.record);
      assert Seen(db.rows, AfterFailure(writer)) == |ChainRows(db.rows, key)|;
    } else if writer.phase.ReadingHead? {
      ChainedIsPending(lib, db.rows, writer.job.record);
    }
  }

  lemma OwnWriteAgrees(want: Wanted, s0: State, lib: Library, db: Db, w: nat, writer: Writer)
    requires NoConflicts(lib, want, s0) && w < |s0.writers| && writer.job == s0.writers[w].job
    requires WriterOk(lib, db, w, writer)
    ensures NextWrite(w, writer).Some? ==> WriteAgrees(want, s0, NextWrite(w, writer).value)
  {
    assert JobAgrees(lib, want, w, writer.job);
  }

  // ---- Steps taken ----

  /** The calls of one whole attempt. */
  function Calls(job: Job): nat {
    3 + |job.items|
  }

  ghost predicate Paced(writer: Writer, steps: nat) {
    writer.attempt >= 1 && (Active(writer) ==> steps <= (writer.attempt - 1) * Calls(writer.job) + PhaseIndex(writer))
  }

  lemma StepperPaced(lib: Library, trigger: bool, db: Db, w: nat, writer: Writer, fate: Fate, steps: nat)
    requires WriterOk(lib, db, w, writer) && Paced(writer, steps)
    ensures Paced(Stepped(lib, trigger, db, w, writer, fate).writer, steps + 1)
  {
    var after := Stepped(lib, trigger, db, w, writer, fate).writer;
    if Active(writer) && after.attempt == writer.attempt + 1 {
      assert (after.attempt - 1) * Calls(writer.job) == (writer.attempt - 1) * Calls(writer.job) + Calls(writer.job);
    }
  }

  // ---- Races ----

  /** What is stored, and what may still arrive, is the writers' own and as all of them want it. */
  ghost predicate RaceDb(lib: Library, want: Wanted, s0: State, s: State) {
    && StateOk(lib, s) && SameJobs(s0, s) && DbAgrees(lib, want, s0, s.db)
    && (forall write :: write in s.abandoned ==> WriteAgrees(want, s0, write))
  }

  ghost predicate RaceOk(lib: Library, want: Wanted, s0: State, s: State, events: seq<Event>) {
    && RaceDb(lib, want, s0, s)
    && (forall w :: 0 <= w < |s.writers| ==> Bounded(lib, s0, s.db, s.writers[w], Losses(events, w)))
    && (forall w :: 0 <= w < |s.writers| ==> Paced(s.writers[w], StepsOf(events, w)))
  }

  lemma RaceStarts(lib: Library, want: Wanted, s0: State)
    requires Initial(s0) && NoConflicts(lib, want, s0)
    ensures RaceOk(lib, want, s0, s0, [])
  {
    forall w | 0 <= w < |s0.writers|
      ensures Bounded(lib, s0, s0.db, s0.writers[w], 0)
    {
      StartBounded(lib, s0, w);
    }
  }

  lemma StartBounded(lib: Library, s0: State, w: nat)
    requires Initial(s0) && w < |s0.writers|
    ensures Bounded(lib, s0, s0.db, s0.writers[w], 0)
  {
    var key := ChainKeyFor(s0.writers[w].job.record);
    assert StoredId(lib, s0.writers[w]) in Contenders(lib, s0, key);
  }

  /** One event of a race: the writers, seen one at a time. */
  lemma RaceStepWriter(lib: Library, want: Wanted, s0: State, s: State, events: seq<Event>, w: nat)
    requires NoConflicts(lib, want, s0) && events != []
    requires RaceOk(lib, want, s0, s, events[..|events| - 1]) && w < |s.writers|
    ensures var t := Step(lib, false, s, events[|events| - 1]);
      && Bounded(lib, s0, t.db, t.writers[w], Losses(events, w))
      && Paced(t.writers[w], StepsOf(events, w))
  {
    var e := events[|events| - 1];
    var t := Step(lib, false, s, e);
    var before := events[..|events| - 1];
    assert Bounded(lib, s0, s.db, s.writers[w], Losses(before, w)) && Paced(s.writers[w], StepsOf(before, w));
    if e.Advance? && e.writer == w {
      StepperBounded(lib, want, s0, s.db, w, s.writers[w], e.fate, Losses(before, w));
      StepperPaced(lib, false, s.db, w, s.writers[w], e.fate, StepsOf(before, w));
    } else {
      StepKeeps(lib, false, s, e);
      GrowthKeepsBound(lib, s0, s.db, t.db, s.writers[w], Losses(before, w));
    }
  }

  lemma RaceStepDb(lib: Library, trigger: bool, want: Wanted, s0: State, s: State, e: Event)
    requires NoConflicts(lib, want, s0) && RaceDb(lib, want, s0, s)
    ensures RaceDb(lib, want, s0, Step(lib, trigger, s, e))
  {
    StepKeeps(lib, trigger, s, e);
    match e
    case Arrive(write) =>
      if write in s.abandoned {
        PerformAgrees(lib, trigger, want, s0, s.db, write);
      }
    case Advance(w, fate) =>
      if w < |s.writers| {
        SteppedJob(lib, trigger, s.db, w, s.writers[w], fate);
        OwnWriteAgrees(want, s0, lib, s.db, w, s.writers[w]);
        if NextWrite(w, s.writers[w]).Some? {
          PerformAgrees(lib, trigger, want, s0, s.db, NextWrite(w, s.writers[w]).value);
        }
      }
  }

  lemma {:induction false} Race(lib: Library, want: Wanted, s0: State, events: seq<Event>)
    requires Initial(s0) && NoConflicts(lib, want, s0)
    ensures RaceOk(lib, want, s0, Run(lib, false, s0, events), events)
  {
    if events == [] {
      RaceStarts(lib, want, s0);
    } else {
      var n := |events| - 1;
      var s := Run(lib, false, s0, events[..n]);
      Race(lib, want, s0, events[..n]);
      RaceStepDb(lib, false, want, s0, s, events[n]);
      forall w | 0 <= w < |s.writers|
        ensures Bounded(lib, s0, Run(lib, false, s0, events).db, Run(lib, false, s0, events).writers[w],
          Losses(events, w))
        ensures Paced(Run(lib, false, s0, events).writers[w], StepsOf(events, w))
      {
        RaceStepWriter(lib, want, s0, s, events, w);
      }
    }
  }

  /**
    In any run, with late commits and lost calls, a writer fails fewer times than there are writers on
    its chain plus calls it lost; so with that many attempts allowed it is never rejected, and once it
    has made that many attempts' worth of calls it has been accepted.
   */
  lemma ContentionBound(lib: Library, want: Wanted, s0: State, events: seq<Event>, t: State, w: nat)
    requires Initial(s0) && NoConflicts(lib, want, s0)
    requires t == Run(lib, false, s0, events) && w < |t.writers|
    ensures Settled(t.writers[w], |Contenders(lib, s0, ChainKeyFor(t.writers[w].job.record))| + Losses(events, w),
      StepsOf(events, w))
  {
    RaceReaches(lib, want, s0, events, t, w);
    BoundedSettles(lib, s0, t.db, w, t.writers[w], Losses(events, w), StepsOf(events, w));
  }

  lemma RaceReaches(lib: Library, want: Wanted, s0: State, events: seq<Event>, t: State, w: nat)
    requires Initial(s0) && NoConflicts(lib, want, s0)
    requires t == Run(lib, false, s0, events) && w < |t.writers|
    ensures WriterOk(lib, t.db, w, t.writers[w])
    ensures Bounded(lib, s0, t.db, t.writers[w], Losses(events, w)) && Paced(t.writers[w], StepsOf(events, w))
  {
    Race(lib, want, s0, events);
    RaceWriter(lib, want, s0, t, events, w);
  }

  lemma RaceWriter(lib: Library, want: Wanted, s0: State, s: State, events: seq<Event>, w: nat)
    requires RaceOk(lib, want, s0, s, events) && w < |s.writers|
    ensures WriterOk(lib, s.db, w, s.writers[w])
    ensures Bounded(lib, s0, s.db, s.writers[w], Losses(events, w)) && Paced(s.writers[w], StepsOf(events, w))
  {}

  /** The attempts a writer can use, and what it has reached once it was allowed, and has used, that many. */
  ghost predicate Settled(writer: Writer, allowance: nat, steps: nat) {
    && writer.attempt <= allowance
    && (writer.job.maxAttempts >= allowance ==> !writer.phase.Rejected?)
    && (writer.job.maxAttempts >= allowance && steps >= allowance * Calls(writer.job) ==> writer.phase.Accepted?)
  }

  lemma BoundedSettles(lib: Library, s0: State, db: Db, w: nat, writer: Writer, losses: nat, steps: nat)
    requires WriterOk(lib, db, w, writer)
    requires Bounded(lib, s0, db, writer, losses) && Paced(writer, steps)
    ensures Settled(writer, |Contenders(lib, s0, ChainKeyFor(writer.job.record))| + losses, steps)
  {
    PhaseFits(lib, db, w, writer);
    Settles(writer, |Contenders(lib, s0, ChainKeyFor(writer.job.record))| + losses, steps);
  }

  lemma PhaseFits(lib: Library, db: Db, w: nat, writer: Writer)
    requires WriterOk(lib, db, w, writer)
    ensures PhaseIndex(writer) < Calls(writer.job)
  {}

  lemma Settles(writer: Writer, allowance: nat, steps: nat)
    requires Failures(writer) < allowance && Paced(writer, steps) && PhaseIndex(writer) < Calls(writer.job)
    ensures writer.attempt <= allowance
    ensures Active(writer) ==> steps < allowance * Calls(writer.job)
  {
    if Active(writer) {
      assert writer.attempt * Calls(writer.job) == (writer.attempt - 1) * Calls(writer.job) + Calls(writer.job);
      MulMonotone(writer.attempt, allowance, Calls(writer.job));
    }
  }

  lemma MulMonotone(a: nat, b: nat, c: nat)
    requires a <= b
    ensures a * c <= b * c
  {}

  /**
    A position found taken was taken by somebody else, after the head was read: the table has since
    gained a row at that position whose id is not the writer's.
   */
  lemma TakenMeansOvertaken(lib: Library, trigger: bool, s: State, events: seq<Event>, w: nat)
    requires StateOk(lib, s) && w < |s.writers| && s.writers[w].phase.ReadingHead?
    requires var t := Run(lib, trigger, Step(lib, trigger, s, Advance(w, Acknowledged)), events);
      && t.writers[w] == Step(lib, trigger, s, Advance(w, Acknowledged)).writers[w]
      && Perform(lib, trigger, t.db, NextWrite(w, t.writers[w]).value).1 == PositionTaken
    ensures var t := Run(lib, trigger, Step(lib, trigger, s, Advance(w, Acknowledged)), events);
      var row := t.writers[w].phase.row;
      exists other :: other in t.db.rows && other !in s.db.rows
        && other.chainKey == row.chainKey && other.chainSeq == row.chainSeq
        && Get(other.record, ActivityId) != Get(StoredRecord(lib, row.record), ActivityId)
  {
    var s1 := Step(lib, trigger, s, Advance(w, Acknowledged));
    var t := Run(lib, trigger, s1, events);
    var row := t.writers[w].phase.row;
    ChainedIsPending(lib, s.db.rows, s.writers[w].job.record);
    FreeMeansNext(s.db.rows, row);
    FindIsMember(t.db.rows, Get(StoredRecord(lib, row.record), ActivityId));
    assert Occupied(t.db.rows, row.chainKey, row.chainSeq) && !Occupied(s.db.rows, row.chainKey, row.chainSeq);
  }
}
