/** Many writers appending without a lock: the recorder's write attempt cut at its awaits (activity/recorder.py). */
module ActivityLog {
  import opened Common
  import opened ActivityChain
  import opened ActivityStorage

  datatype Kind = EvidenceLink | Snapshot | Diff

  /** A caller's id, or the fresh id minted for item `index` in one attempt of one writer. */
  datatype RowId = Given(id: string) | Minted(writer: nat, attempt: nat, index: nat)

  datatype RelatedKey = RelatedKey(kind: Kind, id: RowId)

  /**
    A related row of one activity package, its content as the server compares it. An item that cannot be
    built, or that the server would not take, fails its attempt.
   */
  datatype Item = Item(kind: Kind, id: Option<string>, content: Json, buildable: bool)

  datatype Interaction = Interaction(id: string, content: Json)

  datatype Job = Job(record: Record, interaction: Option<Interaction>, items: seq<Item>, maxAttempts: nat)

  datatype Phase = Ensuring | ReadingHead | Inserting(row: Row) | Relating(next: nat) | Accepted | Rejected

  datatype Writer = Writer(job: Job, phase: Phase, attempt: nat)

  datatype Write =
    | InteractionWrite(interaction: Interaction)
    | ActivityWrite(row: Row)
    | RelatedWrite(key: RelatedKey, content: Json)

  datatype Db = Db(rows: seq<Row>, interactions: map<string, Json>, related: map<RelatedKey, Json>)

  datatype State = State(db: Db, writers: seq<Writer>, abandoned: set<Write>)

  /**
    What the writer sees of one storage call. A write that is not acknowledged is abandoned by its writer but may
    still reach the database later, so a failure before commit, a lost acknowledgement and a late commit are all runs.
   */
  datatype Fate = Acknowledged | Lost

  datatype Event = Advance(writer: nat, fate: Fate) | Arrive(write: Write)

  function Perform(lib: Library, trigger: bool, db: Db, write: Write): (Db, WriteOutcome) {
    match write
    case InteractionWrite(interaction) =>
      var (table, outcome) := Upsert(db.interactions, interaction.id, interaction.content, trigger);
      (db.(interactions := table), outcome)
    case ActivityWrite(row) =>
      var (rows, outcome) := InsertActivity(lib, db.rows, row, trigger);
      (db.(rows := rows), outcome)
    case RelatedWrite(key, content) =>
      var (table, outcome) := Upsert(db.related, key, content, trigger);
      (db.(related := table), outcome)
  }

  function ItemKey(w: nat, attempt: nat, job: Job, i: nat): RelatedKey
    requires i < |job.items|
  {
    var item := job.items[i];
    RelatedKey(item.kind, match item.id case Some(id) => Given(id) case None => Minted(w, attempt, i))
  }

  /** The write a phase is about to issue, if it issues one. */
  function NextWrite(w: nat, writer: Writer): Option<Write> {
    match writer.phase
    case Ensuring =>
      if writer.job.interaction.Some? then Some(InteractionWrite(writer.job.interaction.value)) else None
    case Inserting(row) => Some(ActivityWrite(row))
    case Relating(i) =>
      if i < |writer.job.items| && writer.job.items[i].buildable
      then Some(RelatedWrite(ItemKey(w, writer.attempt, writer.job, i), writer.job.items[i].content))
      else None
    case _ => None
  }

  function AfterSuccess(writer: Writer): Writer {
    match writer.phase
    case Ensuring => writer.(phase := ReadingHead)
    case Inserting(_) => writer.(phase := if writer.job.items == [] then Accepted else Relating(0))
    case Relating(i) => writer.(phase := if i + 1 >= |writer.job.items| then Accepted else Relating(i + 1))
    case _ => writer
  }

  /** Any failure ends the attempt; the next one starts again from the interaction. */
  function AfterFailure(writer: Writer): Writer {
    if writer.attempt < writer.job.maxAttempts
    then writer.(phase := Ensuring, attempt := writer.attempt + 1)
    else writer.(phase := Rejected)
  }

  /** What one step of one writer does: to the database, to the abandoned writes, to the writer. */
  datatype Effect = Effect(db: Db, abandoned: set<Write>, writer: Writer)

  function Stepped(lib: Library, trigger: bool, db: Db, w: nat, writer: Writer, fate: Fate): Effect {
    match writer.phase
    case Accepted => Effect(db, {}, writer)
    case Rejected => Effect(db, {}, writer)
    case ReadingHead =>
      if fate == Lost then Effect(db, {}, AfterFailure(writer))
      else
        var row := Chained(lib, writer.job.record, HeadOf(db.rows, ChainKeyFor(writer.job.record)));
        Effect(db, {}, writer.(phase := Inserting(row)))
    case _ =>
      match NextWrite(w, writer)
      case None => Effect(db, {}, if writer.phase.Relating? then AfterFailure(writer) else AfterSuccess(writer))
      case Some(write) =>
        if fate == Lost then Effect(db, {write}, AfterFailure(writer))
        else
          var (after, outcome) := Perform(lib, trigger, db, write);
          Effect(after, {}, if outcome.Succeeded() then AfterSuccess(writer) else AfterFailure(writer))
  }

  /** One event; an event that names nothing real changes nothing. */
  function Step(lib: Library, trigger: bool, s: State, e: Event): (t: State)
    ensures |t.writers| == |s.writers|
  {
    match e
    case Advance(w, fate) =>
      if w < |s.writers| then
        var effect := Stepped(lib, trigger, s.db, w, s.writers[w], fate);
        State(effect.db, s.writers[w := effect.writer], s.abandoned + effect.abandoned)
      else s
    case Arrive(write) =>
      if write in s.abandoned then s.(db := Perform(lib, trigger, s.db, write).0) else s
  }

  function Run(lib: Library, trigger: bool, s: State, events: seq<Event>): (t: State)
    ensures |t.writers| == |s.writers|
  {
    if events == [] then s
    else Step(lib, trigger, Run(lib, trigger, s, events[..|events| - 1]), events[|events| - 1])
  }

  /** The writer has not returned to its caller yet. */
  predicate Active(writer: Writer) {
    !writer.phase.Accepted? && !writer.phase.Rejected?
  }

  /** Which of its attempt's calls a writer is at. */
  function PhaseIndex(writer: Writer): nat {
    match writer.phase
    case Ensuring => 0
    case ReadingHead => 1
    case Inserting(_) => 2
    case Relating(i) => 3 + i
    case _ => 0
  }

  // ---- What every step keeps ----

  ghost predicate UniqueIds(rows: seq<Row>) {
    forall i, j :: 0 <= i < j < |rows| ==> Get(rows[i].record, ActivityId) != Get(rows[j].record, ActivityId)
  }

  ghost predicate TableOk(rows: seq<Row>) {
    && UniqueIds(rows)
    && forall key :: Linked(ChainRows(rows, key))
  }

  /** A row computed from some head of the past: its place is at most one past the end, its link is still right. */
  predicate Pending(rows: seq<Row>, row: Row) {
    var chain := ChainRows(rows, row.chainKey);
    && 1 <= row.chainSeq <= |chain| + 1
    && row.prevRecordHash == PrevHash(chain, row.chainSeq - 1)
  }

  predicate WriteOk(rows: seq<Row>, write: Write) {
    write.ActivityWrite? ==> Pending(rows, write.row)
  }

  ghost predicate InteractionStored(db: Db, job: Job) {
    job.interaction.Some? ==>
      job.interaction.value.id in db.interactions
      && db.interactions[job.interaction.value.id] == job.interaction.value.content
  }

  /** The same id, and the same content as the server compares it. */
  ghost predicate Agrees(lib: Library, a: Record, b: Record) {
    Get(a, ActivityId) == Get(b, ActivityId) && SameContent(lib, a, b)
  }

  ghost predicate RecordStored(lib: Library, rows: seq<Row>, record: Record) {
    exists row :: row in rows && Agrees(lib, row.record, StoredRecord(lib, record))
  }

  /** The effect of a write is in the database, whoever put it there. */
  ghost predicate Landed(lib: Library, db: Db, write: Write) {
    match write
    case InteractionWrite(interaction) =>
      interaction.id in db.interactions && db.interactions[interaction.id] == interaction.content
    case ActivityWrite(row) => RecordStored(lib, db.rows, row.record)
    case RelatedWrite(key, content) => key in db.related && db.related[key] == content
  }

  ghost predicate ItemsStored(db: Db, w: nat, writer: Writer, n: nat)
    requires n <= |writer.job.items|
  {
    forall i :: 0 <= i < n ==>
      var key := ItemKey(w, writer.attempt, writer.job, i);
      key in db.related && db.related[key] == writer.job.items[i].content
  }

  /** The interaction, the activity and every related row of the package are stored. */
  ghost predicate Complete(lib: Library, db: Db, w: nat, writer: Writer) {
    && InteractionStored(db, writer.job)
    && RecordStored(lib, db.rows, writer.job.record)
    && ItemsStored(db, w, writer, |writer.job.items|)
  }

  ghost predicate WriterOk(lib: Library, db: Db, w: nat, writer: Writer) {
    match writer.phase
    case Ensuring => true
    case ReadingHead => InteractionStored(db, writer.job)
    case Inserting(row) =>
      && InteractionStored(db, writer.job)
      && Pending(db.rows, row) && row.record == writer.job.record
      && row.chainKey == ChainKeyFor(writer.job.record)
    case Relating(i) =>
      && InteractionStored(db, writer.job) && RecordStored(lib, db.rows, writer.job.record)
      && i < |writer.job.items| && ItemsStored(db, w, writer, i)
    case Accepted => Complete(lib, db, w, writer)
    case Rejected => true
  }

  ghost predicate StateOk(lib: Library, s: State) {
    && TableOk(s.db.rows)
    && (forall write :: write in s.abandoned ==> WriteOk(s.db.rows, write))
    && (forall w :: 0 <= w < |s.writers| ==> WriterOk(lib, s.db, w, s.writers[w]))
  }

  /** Nothing stored is ever removed or changed; the table only gains rows at its end. */
  ghost predicate Grows(a: Db, b: Db) {
    && a.rows <= b.rows
    && (forall k :: k in a.interactions ==> k in b.interactions && b.interactions[k] == a.interactions[k])
    && (forall k :: k in a.related ==> k in b.related && b.related[k] == a.related[k])
  }

  lemma {:induction false} ChainRowsGrow(a: seq<Row>, b: seq<Row>, key: string)
    requires a <= b
    ensures ChainRows(a, key) <= ChainRows(b, key)
    decreases |b|
  {
    if a != b {
      assert a <= b[..|b| - 1];
      ChainRowsGrow(a, b[..|b| - 1], key);
    }
  }

  lemma PendingPersists(a: seq<Row>, b: seq<Row>, row: Row)
    requires a <= b && Pending(a, row)
    ensures Pending(b, row)
  {
    ChainRowsGrow(a, b, row.chainKey);
  }

  /** The head query returns the last row of the chain. */
  lemma HeadIsLast(rows: seq<Row>, key: string)
    requires TableOk(rows)
    ensures var chain := ChainRows(rows, key);
      HeadOf(rows, key) == if chain == [] then None else Some(ChainHead(|chain|, chain[|chain| - 1].recordHash))
  {
    var chain := ChainRows(rows, key);
    OrderedStaysPut(chain);
    if chain != [] {
      assert LinkedAt(chain, |chain| - 1);
    }
  }

  /** What an attempt computes from the head it read is the next position of its chain, whatever the record. */
  lemma ChainedIsPending(lib: Library, rows: seq<Row>, record: Record)
    requires TableOk(rows)
    ensures var row := Chained(lib, record, HeadOf(rows, ChainKeyFor(record)));
      && Pending(rows, row) && row.record == record
      && row.chainKey == ChainKeyFor(record)
      && row.chainSeq == |ChainRows(rows, ChainKeyFor(record))| + 1
  {
    HeadIsLast(rows, ChainKeyFor(record));
  }

  /** A pending row whose position is free can only be the next one. */
  lemma FreeMeansNext(rows: seq<Row>, row: Row)
    requires TableOk(rows) && Pending(rows, row)
    ensures Occupied(rows, row.chainKey, row.chainSeq) <==> row.chainSeq <= |ChainRows(rows, row.chainKey)|
  {
    var chain := ChainRows(rows, row.chainKey);
    if row.chainSeq <= |chain| {
      var holder := chain[row.chainSeq - 1];
      assert LinkedAt(chain, row.chainSeq - 1);
      ChainRowsSelects(rows, row.chainKey, holder);
    }
    if Occupied(rows, row.chainKey, row.chainSeq) {
      var holder :| holder in rows && holder.chainKey == row.chainKey && holder.chainSeq == row.chainSeq;
      ChainRowsSelects(rows, row.chainKey, holder);
      var i :| 0 <= i < |chain| && chain[i] == holder;
      assert LinkedAt(chain, i);
    }
  }

  /** A linked chain with the next row appended is linked. */
  lemma LinkedSnoc(chain: seq<Row>, row: Row)
    requires Linked(chain)
    requires row.chainSeq == |chain| + 1 && row.prevRecordHash == PrevHash(chain, |chain|)
    ensures Linked(chain + [row])
  {
    var longer := chain + [row];
    forall i | 0 <= i < |longer|
      ensures LinkedAt(longer, i)
    {
      if i < |chain| {
        assert LinkedAt(chain, i);
      }
    }
  }

  lemma NewIdStaysUnique(rows: seq<Row>, row: Row)
    requires UniqueIds(rows) && Find(rows, Get(row.record, ActivityId)).None?
    ensures UniqueIds(rows + [row])
  {
    var longer := rows + [row];
    FindIsMember(rows, Get(row.record, ActivityId));
    forall i, j | 0 <= i < j < |longer|
      ensures Get(longer[i].record, ActivityId) != Get(longer[j].record, ActivityId)
    {
      if j == |rows| {
        assert longer[i] == rows[i] && rows[i] in rows;
      }
    }
  }

  /** Appending a pending row at a free position extends its chain and leaves the others alone. */
  lemma AppendKeepsTable(lib: Library, rows: seq<Row>, row: Row)
    requires TableOk(rows) && Pending(rows, row)
    requires !Occupied(rows, row.chainKey, row.chainSeq)
    requires Find(rows, Get(StoredRow(lib, row).record, ActivityId)).None?
    ensures TableOk(rows + [StoredRow(lib, row)])
  {
    var stored := StoredRow(lib, row);
    NewIdStaysUnique(rows, stored);
    FreeMeansNext(rows, row);
    forall key
      ensures Linked(ChainRows(rows + [stored], key))
    {
      ChainRowsAppend(rows, stored, key);
      if key == row.chainKey {
        LinkedSnoc(ChainRows(rows, key), stored);
      } else {
        assert ChainRows(rows + [stored], key) == ChainRows(rows, key);
      }
    }
  }

  lemma PerformKeeps(lib: Library, trigger: bool, db: Db, write: Write)
    requires TableOk(db.rows) && WriteOk(db.rows, write)
    ensures TableOk(Perform(lib, trigger, db, write).0.rows)
    ensures Grows(db, Perform(lib, trigger, db, write).0)
    ensures Perform(lib, trigger, db, write).1.Succeeded() ==> Landed(lib, Perform(lib, trigger, db, write).0, write)
  {
    if write.ActivityWrite? {
      InsertKeeps(lib, trigger, db.rows, write.row);
    }
  }

  lemma InsertKeeps(lib: Library, trigger: bool, rows: seq<Row>, row: Row)
    requires TableOk(rows) && Pending(rows, row)
    ensures var (after, outcome) := InsertActivity(lib, rows, row, trigger);
      TableOk(after) && rows <= after && (outcome.Succeeded() ==> RecordStored(lib, after, row.record))
  {
    var id := Get(StoredRow(lib, row).record, ActivityId);
    FindIsMember(rows, id);
    var (after, outcome) := InsertActivity(lib, rows, row, trigger);
    if outcome.Created? {
      AppendKeepsTable(lib, rows, row);
      assert after[|rows|] == StoredRow(lib, row);
      assert Agrees(lib, after[|rows|].record, StoredRecord(lib, row.record));
    } else if outcome.AlreadyStored? {
      assert Agrees(lib, Find(rows, id).value.record, StoredRecord(lib, row.record));
    }
  }
}
