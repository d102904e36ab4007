/** What holds after every run of the activity log, whatever the interleaving, faults and late commits. */
module ActivityLogSafety {
  import opened Common
  import opened ActivityChain
  import opened ActivityStorage
  import opened ActivityLog

  lemma GrowthKeepsWriter(lib: Library, a: Db, b: Db, w: nat, writer: Writer)
    requires Grows(a, b) && WriterOk(lib, a, w, writer)
    ensures WriterOk(lib, b, w, writer)
  {
    if RecordStored(lib, a.rows, writer.job.record) {
      var row :| row in a.rows && Agrees(lib, row.record, StoredRecord(lib, writer.job.record));
      assert row in b.rows;
    }
    if writer.phase.Inserting? {
      PendingPersists(a.rows, b.rows, writer.phase.row);
    }
  }

  lemma GrowthKeepsWrite(lib: Library, a: Db, b: Db, write: Write)
    requires Grows(a, b) && WriteOk(a.rows, write)
    ensures WriteOk(b.rows, write)
  {
    if write.ActivityWrite? {
      PendingPersists(a.rows, b.rows, write.row);
    }
  }

  /** A database that only grew keeps every writer and every abandoned write well placed. */
  lemma GrowthKeepsState(lib: Library, s: State, db: Db)
    requires StateOk(lib, s) && Grows(s.db, db) && TableOk(db.rows)
    ensures StateOk(lib, s.(db := db))
  {
    forall w | 0 <= w < |s.writers|
      ensures WriterOk(lib, db, w, s.writers[w])
    {
      GrowthKeepsWriter(lib, s.db, db, w, s.writers[w]);
    }
    forall write | write in s.abandoned
      ensures WriteOk(db.rows, write)
    {
      GrowthKeepsWrite(lib, s.db, db, write);
    }
  }

  lemma NextWriteOk(lib: Library, db: Db, w: nat, writer: Writer)
    requires WriterOk(lib, db, w, writer)
    ensures NextWrite(w, writer).Some? ==> WriteOk(db.rows, NextWrite(w, writer).value)
  {}

  /** A write that succeeded takes its writer to a phase whose promise the new database keeps. */
  lemma SuccessOk(lib: Library, trigger: bool, db: Db, w: nat, writer: Writer, write: Write)
    requires TableOk(db.rows) && WriterOk(lib, db, w, writer)
    requires NextWrite(w, writer) == Some(write)
    requires Perform(lib, trigger, db, write).1.Succeeded()
    ensures WriterOk(lib, Perform(lib, trigger, db, write).0, w, AfterSuccess(writer))
  {
    var after := Perform(lib, trigger, db, write).0;
    PerformKeeps(lib, trigger, db, write);
    GrowthKeepsWriter(lib, db, after, w, writer);
    if writer.phase.Relating? {
      assert ItemsStored(after, w, writer, writer.phase.next + 1);
    }
  }

  /** The effect of a step keeps all that the writer and the table promise. */
  ghost predicate GoodEffect(lib: Library, db: Db, w: nat, writer: Writer, effect: Effect) {
    && TableOk(effect.db.rows) && Grows(db, effect.db)
    && WriterOk(lib, effect.db, w, effect.writer) && effect.writer.job == writer.job
    && forall write :: write in effect.abandoned ==> WriteOk(db.rows, write)
  }

  lemma WriteEffectOk(lib: Library, trigger: bool, db: Db, w: nat, writer: Writer, write: Write, fate: Fate)
    requires TableOk(db.rows) && WriterOk(lib, db, w, writer)
    requires NextWrite(w, writer) == Some(write)
    ensures GoodEffect(lib, db, w, writer, Stepped(lib, trigger, db, w, writer, fate))
  {
    NextWriteOk(lib, db, w, writer);
    if fate == Acknowledged {
      PerformKeeps(lib, trigger, db, write);
      if Perform(lib, trigger, db, write).1.Succeeded() {
        SuccessOk(lib, trigger, db, w, writer, write);
      } else {
        FailureOk(lib, db, Perform(lib, trigger, db, write).0, w, writer);
      }
    } else {
      FailureOk(lib, db, db, w, writer);
    }
  }

  /** After a failure a writer relies on nothing but its own record. */
  lemma FailureOk(lib: Library, db: Db, after: Db, w: nat, writer: Writer)
    requires WriterOk(lib, db, w, writer)
    ensures WriterOk(lib, after, w, AfterFailure(writer)) && AfterFailure(writer).job == writer.job
  {}

  lemma EffectOk(lib: Library, trigger: bool, db: Db, w: nat, writer: Writer, fate: Fate)
    requires TableOk(db.rows) && WriterOk(lib, db, w, writer)
    ensures GoodEffect(lib, db, w, writer, Stepped(lib, trigger, db, w, writer, fate))
  {
    match NextWrite(w, writer)
    case Some(write) => WriteEffectOk(lib, trigger, db, w, writer, write, fate);
    case None =>
      if writer.phase.ReadingHead? {
        ChainedIsPending(lib, db.rows, writer.job.record);
      }
  }

  lemma StepKeeps(lib: Library, trigger: bool, s: State, e: Event)
    requires StateOk(lib, s)
    ensures StateOk(lib, Step(lib, trigger, s, e))
    ensures Grows(s.db, Step(lib, trigger, s, e).db)
    ensures SameJobs(s, Step(lib, trigger, s, e))
  {
    match e
    case Arrive(write) =>
      if write in s.abandoned {
        PerformKeeps(lib, trigger, s.db, write);
        GrowthKeepsState(lib, s, Perform(lib, trigger, s.db, write).0);
      }
    case Advance(w, fate) =>
      if w < |s.writers| {
        EffectOk(lib, trigger, s.db, w, s.writers[w], fate);
        var effect := Stepped(lib, trigger, s.db, w, s.writers[w], fate);
        var widened := s.(abandoned := s.abandoned + effect.abandoned);
        GrowthKeepsState(lib, widened, effect.db);
      }
  }

  ghost predicate SameJobs(s: State, t: State) {
    |s.writers| == |t.writers| && forall w :: 0 <= w < |s.writers| ==> t.writers[w].job == s.writers[w].job
  }

  lemma {:induction false} RunKeeps(lib: Library, trigger: bool, s: State, events: seq<Event>)
    requires StateOk(lib, s)
    ensures StateOk(lib, Run(lib, trigger, s, events))
    ensures Grows(s.db, Run(lib, trigger, s, events).db)
    ensures SameJobs(s, Run(lib, trigger, s, events))
  {
    if events != [] {
      var n := |events| - 1;
      RunKeeps(lib, trigger, s, events[..n]);
      StepKeeps(lib, trigger, Run(lib, trigger, s, events[..n]), events[n]);
    }
  }

  /** Where a run starts: a well-formed log, and writers about to make their first attempt. */
  ghost predicate Initial(s: State) {
    && TableOk(s.db.rows)
    && s.abandoned == {}
    && forall w :: 0 <= w < |s.writers| ==>
         s.writers[w].phase == Ensuring && s.writers[w].attempt == 1 && s.writers[w].job.maxAttempts >= 1
  }

  // ---- Main results ----

  /** Whatever the schedule and the records, every chain key carries rows 1..n, each linked to the one before. */
  lemma EveryRunLinks(lib: Library, trigger: bool, s: State, events: seq<Event>, key: string)
    requires Initial(s)
    ensures var rows := Run(lib, trigger, s, events).db.rows;
      Linked(ChainRows(rows, key)) && FetchChain(rows, key) == ChainRows(rows, key)
  {
    RunKeeps(lib, trigger, s, events);
    OrderedStaysPut(ChainRows(Run(lib, trigger, s, events).db.rows, key));
  }

  /** An accepted package is stored whole, and nothing committed before or since has moved. */
  lemma AcceptedMeansComplete(lib: Library, trigger: bool, s: State, events: seq<Event>, w: nat)
    requires Initial(s) && w < |s.writers|
    requires Run(lib, trigger, s, events).writers[w].phase.Accepted?
    ensures var t := Run(lib, trigger, s, events);
      && t.writers[w].job == s.writers[w].job
      && Complete(lib, t.db, w, t.writers[w])
  {
    RunKeeps(lib, trigger, s, events);
    assert WriterOk(lib, Run(lib, trigger, s, events).db, w, Run(lib, trigger, s, events).writers[w]);
  }

  /** Once a row is stored its position is final: later attempts neither move it nor add another of its id. */
  lemma FirstCommitIsFinal(lib: Library, trigger: bool, s: State, events: seq<Event>, p: nat)
    requires StateOk(lib, s) && p < |s.db.rows|
    ensures var rows := Run(lib, trigger, s, events).db.rows;
      && p < |rows| && rows[p] == s.db.rows[p]
      && forall q :: 0 <= q < |rows| && Get(rows[q].record, ActivityId) == Get(rows[p].record, ActivityId) ==> q == p
  {
    RunKeeps(lib, trigger, s, events);
  }

  /** An id already stored with other content can never be accepted, and its row stays as it was. */
  lemma ReuseNeverAccepted(lib: Library, trigger: bool, s: State, events: seq<Event>, w: nat, held: Row)
    requires StateOk(lib, s) && w < |s.writers| && held in s.db.rows
    requires Get(held.record, ActivityId) == Get(StoredRecord(lib, s.writers[w].job.record), ActivityId)
    requires !SameContent(lib, held.record, StoredRecord(lib, s.writers[w].job.record))
    ensures !Run(lib, trigger, s, events).writers[w].phase.Accepted?
    ensures held in Run(lib, trigger, s, events).db.rows
  {
    RunKeeps(lib, trigger, s, events);
    var t := Run(lib, trigger, s, events);
    assert WriterOk(lib, t.db, w, t.writers[w]);
    var wanted := StoredRecord(lib, s.writers[w].job.record);
    forall row | row in t.db.rows
      ensures !Agrees(lib, row.record, wanted)
    {
      assert held in t.db.rows;
      OneRowPerId(t.db.rows, row, held);
    }
  }

  lemma OneRowPerId(rows: seq<Row>, a: Row, b: Row)
    requires UniqueIds(rows) && a in rows && b in rows
    ensures Get(a.record, ActivityId) == Get(b.record, ActivityId) ==> a == b
  {
    var i :| 0 <= i < |rows| && rows[i] == a;
    var j :| 0 <= j < |rows| && rows[j] == b;
  }

  /** One insert of an id that is already stored: the table stays as it is, and only equal content can succeed. */
  lemma RepeatedInsert(lib: Library, trigger: bool, rows: seq<Row>, row: Row, held: Row)
    requires UniqueIds(rows) && held in rows
    requires Get(held.record, ActivityId) == Get(StoredRecord(lib, row.record), ActivityId)
    ensures InsertActivity(lib, rows, row, trigger)
      == (rows, if !HasRequired(row.record) then MissingField
                else if !ServerTakes(lib, row.record) then Refused
                else if !SameContent(lib, held.record, StoredRecord(lib, row.record)) then Conflict
                else if trigger then TriggerRejected else AlreadyStored)
  {
    var id := Get(StoredRecord(lib, row.record), ActivityId);
    FindIsMember(rows, id);
    OneRowPerId(rows, Find(rows, id).value, held);
  }

  // ---- Related rows ----

  /** The rows that item i of writer w may occupy: its given id, or any id minted for it. */
  ghost predicate CopyOf(key: RelatedKey, w: nat, job: Job, i: nat)
    requires i < |job.items|
  {
    && key.kind == job.items[i].kind
    && ((job.items[i].id.Some? && key.id == Given(job.items[i].id.value))
        || (key.id.Minted? && key.id.writer == w && key.id.index == i))
  }

  /** Fresh ids appear only for items that came without one. */
  ghost predicate MintedAreUnnamed(writers: seq<Writer>, key: RelatedKey) {
    key.id.Minted? ==>
      && key.id.writer < |writers|
      && key.id.index < |writers[key.id.writer].job.items|
      && writers[key.id.writer].job.items[key.id.index].id.None?
  }

  ghost predicate MintingOk(s: State) {
    && (forall key :: key in s.db.related ==> MintedAreUnnamed(s.writers, key))
    && (forall write :: write in s.abandoned && write.RelatedWrite? ==> MintedAreUnnamed(s.writers, write.key))
  }

  /** A write adds no related row but its own. */
  lemma OnlyOwnRelated(lib: Library, trigger: bool, db: Db, write: Write, key: RelatedKey)
    requires key in Perform(lib, trigger, db, write).0.related
    ensures key in db.related || (write.RelatedWrite? && write.key == key)
  {}

  lemma OwnWriteUnnamed(writers: seq<Writer>, w: nat)
    requires w < |writers|
    ensures var next := NextWrite(w, writers[w]);
      next.Some? && next.value.RelatedWrite? ==> MintedAreUnnamed(writers, next.value.key)
  {}

  lemma SteppedJob(lib: Library, trigger: bool, db: Db, w: nat, writer: Writer, fate: Fate)
    ensures Stepped(lib, trigger, db, w, writer, fate).writer.job == writer.job
    ensures Stepped(lib, trigger, db, w, writer, fate).abandoned
      <= match NextWrite(w, writer) case Some(x) => {x} case None => {}
    ensures Stepped(lib, trigger, db, w, writer, fate).db
      in {db, if NextWrite(w, writer).Some? then Perform(lib, trigger, db, NextWrite(w, writer).value).0 else db}
  {}

  lemma MintingStep(lib: Library, trigger: bool, s: State, e: Event)
    requires MintingOk(s)
    ensures MintingOk(Step(lib, trigger, s, e))
    ensures SameJobs(s, Step(lib, trigger, s, e))
  {
    var t := Step(lib, trigger, s, e);
    var moves := e.Advance? && e.writer < |s.writers|;
    if moves {
      SteppedJob(lib, trigger, s.db, e.writer, s.writers[e.writer], e.fate);
      OwnWriteUnnamed(s.writers, e.writer);
    }
    forall key | key in t.db.related
      ensures MintedAreUnnamed(t.writers, key)
    {
      if e.Arrive? && e.write in s.abandoned {
        OnlyOwnRelated(lib, trigger, s.db, e.write, key);
      } else if moves && NextWrite(e.writer, s.writers[e.writer]).Some? && key !in s.db.related {
        OnlyOwnRelated(lib, trigger, s.db, NextWrite(e.writer, s.writers[e.writer]).value, key);
      }
      assert MintedAreUnnamed(s.writers, key);
    }
    forall write | write in t.abandoned && write.RelatedWrite?
      ensures MintedAreUnnamed(t.writers, write.key)
    {
      assert MintedAreUnnamed(s.writers, write.key);
    }
  }

  lemma {:induction false} MintingKept(lib: Library, trigger: bool, s: State, events: seq<Event>)
    requires MintingOk(s)
    ensures MintingOk(Run(lib, trigger, s, events))
    ensures SameJobs(s, Run(lib, trigger, s, events))
  {
    if events != [] {
      var n := |events| - 1;
      MintingKept(lib, trigger, s, events[..n]);
      MintingStep(lib, trigger, Run(lib, trigger, s, events[..n]), events[n]);
    }
  }

  /** With a caller's id, an accepted item is stored exactly once, however many attempts it took. */
  lemma NamedItemStoredOnce(lib: Library, trigger: bool, s: State, events: seq<Event>, w: nat, i: nat)
    requires Initial(s) && MintingOk(s) && w < |s.writers|
    requires Run(lib, trigger, s, events).writers[w].phase.Accepted?
    requires i < |s.writers[w].job.items| && s.writers[w].job.items[i].id.Some?
    ensures var job := s.writers[w].job; var t := Run(lib, trigger, s, events);
      var key := RelatedKey(job.items[i].kind, Given(job.items[i].id.value));
      && key in t.db.related && t.db.related[key] == job.items[i].content
      && forall other :: other in t.db.related && CopyOf(other, w, job, i) ==> other == key
  {
    AcceptedMeansComplete(lib, trigger, s, events, w);
    MintingKept(lib, trigger, s, events);
    var t := Run(lib, trigger, s, events);
    assert ItemKey(w, t.writers[w].attempt, t.writers[w].job, i).id == Given(s.writers[w].job.items[i].id.value);
  }

  lemma RunSnoc(lib: Library, trigger: bool, s: State, events: seq<Event>, e: Event)
    ensures Run(lib, trigger, s, events + [e]) == Step(lib, trigger, Run(lib, trigger, s, events), e)
  {
    assert (events + [e])[..|events|] == events;
  }

  lemma StepAlone(lib: Library, db: Db, writer: Writer, abandoned: set<Write>, fate: Fate)
    ensures var effect := Stepped(lib, false, db, 0, writer, fate);
      Step(lib, false, State(db, [writer], abandoned), Advance(0, fate))
        == State(effect.db, [effect.writer], abandoned + effect.abandoned)
  {}

  /** One more step of the only writer, whose effect is known. */
  lemma RunAlone(lib: Library, s0: State, events: seq<Event>, db: Db, writer: Writer, abandoned: set<Write>, fate: Fate,
                 effect: Effect)
    requires Run(lib, false, s0, events) == State(db, [writer], abandoned)
    requires effect == Stepped(lib, false, db, 0, writer, fate)
    ensures Run(lib, false, s0, events + [Advance(0, fate)])
      == State(effect.db, [effect.writer], abandoned + effect.abandoned)
  {
    RunSnoc(lib, false, s0, events, Advance(0, fate));
    StepAlone(lib, db, writer, abandoned, fate);
  }

  lemma AcknowledgedInsert(lib: Library, db: Db, writer: Writer, row: Row, rows: seq<Row>)
    requires writer.phase == Inserting(row) && writer.job.items != []
    requires InsertActivity(lib, db.rows, row, false).0 == rows
      && InsertActivity(lib, db.rows, row, false).1.Succeeded()
    ensures Stepped(lib, false, db, 0, writer, Acknowledged)
      == Effect(db.(rows := rows), {}, writer.(phase := Relating(0)))
  {}

  /** Three acknowledged calls take a writer without interaction from the start of an attempt past its insert. */
  lemma ThreeCalls(lib: Library, s0: State, events: seq<Event>, db: Db, writer: Writer, abandoned: set<Write>, row: Row,
                   rows: seq<Row>)
    requires Run(lib, false, s0, events) == State(db, [writer], abandoned)
    requires writer.phase == Ensuring && writer.job.interaction == None && writer.job.items != []
    requires row == Chained(lib, writer.job.record, HeadOf(db.rows, ChainKeyFor(writer.job.record)))
    requires InsertActivity(lib, db.rows, row, false).0 == rows
      && InsertActivity(lib, db.rows, row, false).1.Succeeded()
    ensures var go := Advance(0, Acknowledged);
      Run(lib, false, s0, events + [go] + [go] + [go])
        == State(db.(rows := rows), [writer.(phase := Relating(0))], abandoned)
  {
    var go := Advance(0, Acknowledged);
    var reading, inserting := writer.(phase := ReadingHead), writer.(phase := Inserting(row));
    RunAlone(lib, s0, events, db, writer, abandoned, Acknowledged, Effect(db, {}, reading));
    assert abandoned + {} == abandoned;
    RunAlone(lib, s0, events + [go], db, reading, abandoned, Acknowledged, Effect(db, {}, inserting));
    AcknowledgedInsert(lib, db, inserting, row, rows);
    RunAlone(lib, s0, events + [go] + [go], db, inserting, abandoned, Acknowledged,
      Effect(db.(rows := rows), {}, inserting.(phase := Relating(0))));
  }

  /** A one-snapshot package whose snapshot came without an id. */
  function UnnamedJob(record: Record, content: Json): Job {
    Job(record, None, [Item(Snapshot, None, content, true)], 2)
  }

  function UnnamedStart(record: Record, content: Json): State {
    State(Db([], map[], map[]), [Writer(UnnamedJob(record, content), Ensuring, 1)], {})
  }

  function MintedKey(attempt: nat): RelatedKey {
    RelatedKey(Snapshot, Minted(0, attempt, 0))
  }

  function OneRow(lib: Library, record: Record): seq<Row> {
    [StoredRow(lib, Chained(lib, record, None))]
  }

  /** The snapshot of the first attempt commits, but its acknowledgement is lost. */
  lemma FirstSnapshotLost(lib: Library, record: Record, content: Json) returns (events: seq<Event>)
    requires HasRequired(record) && ServerTakes(lib, record)
    ensures Run(lib, false, UnnamedStart(record, content), events)
      == State(Db(OneRow(lib, record), map[], map[MintedKey(1) := content]),
               [Writer(UnnamedJob(record, content), Ensuring, 2)], {RelatedWrite(MintedKey(1), content)})
  {
    var job, s0, rows := UnnamedJob(record, content), UnnamedStart(record, content), OneRow(lib, record);
    var go, lose, first := Advance(0, Acknowledged), Advance(0, Lost), RelatedWrite(MintedKey(1), content);
    FindIsMember([], Get(StoredRecord(lib, record), ActivityId));
    ThreeCalls(lib, s0, [], s0.db, Writer(job, Ensuring, 1), {}, Chained(lib, record, None), rows);
    var e3 := [] + [go] + [go] + [go];
    RunSnoc(lib, false, s0, e3, lose);
    StepAlone(lib, Db(rows, map[], map[]), Writer(job, Relating(0), 1), {}, Lost);
    RunSnoc(lib, false, s0, e3 + [lose], Arrive(first));
    events := e3 + [lose] + [Arrive(first)];
  }

  /**
    An item that came without an id can be stored twice: its first write commits unacknowledged, the retry
    mints anew.
   */
  lemma UnnamedItemMayRepeat(lib: Library, record: Record, content: Json) returns (events: seq<Event>)
    requires HasRequired(record) && ServerTakes(lib, record)
    ensures var t := Run(lib, false, UnnamedStart(record, content), events);
      && t.writers == [Writer(UnnamedJob(record, content), Accepted, 2)]
      && t.db.related == map[MintedKey(1) := content, MintedKey(2) := content]
  {
    var job, s0, rows := UnnamedJob(record, content), UnnamedStart(record, content), OneRow(lib, record);
    var go, first := Advance(0, Acknowledged), RelatedWrite(MintedKey(1), content);
    var db := Db(rows, map[], map[MintedKey(1) := content]);
    var e5 := FirstSnapshotLost(lib, record, content);
    SecondInsert(lib, record);
    ThreeCalls(lib, s0, e5, db, Writer(job, Ensuring, 2), {first},
      Chained(lib, record, HeadOf(rows, ChainKeyFor(record))), rows);
    var both := map[MintedKey(1) := content, MintedKey(2) := content];
    LastItem(lib, db, Writer(job, Relating(0), 2), db.(related := both));
    RunAlone(lib, s0, e5 + [go] + [go] + [go], db, Writer(job, Relating(0), 2), {first}, Acknowledged,
      Effect(db.(related := both), {}, Writer(job, Accepted, 2)));
    events := e5 + [go] + [go] + [go] + [go];
  }

  /** The last item of a package, with a fresh id, acknowledged. */
  lemma LastItem(lib: Library, db: Db, writer: Writer, after: Db)
    requires writer.phase == Relating(0) && |writer.job.items| == 1 && writer.job.items[0].buildable
    requires ItemKey(0, writer.attempt, writer.job, 0) !in db.related
    requires after
      == db.(related := db.related[ItemKey(0, writer.attempt, writer.job, 0) := writer.job.items[0].content])
    ensures Stepped(lib, false, db, 0, writer, Acknowledged) == Effect(after, {}, writer.(phase := Accepted))
  {}

  lemma SecondInsert(lib: Library, record: Record)
    requires HasRequired(record) && ServerTakes(lib, record)
    ensures InsertActivity(lib, OneRow(lib, record),
      Chained(lib, record, HeadOf(OneRow(lib, record), ChainKeyFor(record))), false)
      == (OneRow(lib, record), AlreadyStored)
  {
    var rows := OneRow(lib, record);
    RepeatedInsert(lib, false, rows, Chained(lib, record, HeadOf(rows, ChainKeyFor(record))), rows[0]);
  }

  // ---- The append-only trigger ----

  /** The row is complete, and nothing in it is refused by the server. */
  predicate Insertable(lib: Library, record: Record) {
    HasRequired(record) && ServerTakes(lib, record)
  }

  /** The writer still has its activity row before it. */
  predicate BeforeInsert(writer: Writer) {
    writer.phase.Ensuring? || writer.phase.ReadingHead?
    || (writer.phase.Inserting? && writer.phase.row.record == writer.job.record)
  }

  /** A writer that can only fail from here on while the trigger refuses self-assigning updates. */
  ghost predicate Doomed(lib: Library, db: Db, writer: Writer) {
    || writer.phase.Rejected?
    || (writer.phase.Ensuring? && writer.job.interaction.Some? && writer.job.interaction.value.id in db.interactions)
    || (BeforeInsert(writer) && (IdStored(lib, db.rows, writer.job.record) || !Insertable(lib, writer.job.record)))
  }

  ghost predicate IdStored(lib: Library, rows: seq<Row>, record: Record) {
    exists row :: row in rows && Get(row.record, ActivityId) == Get(StoredRecord(lib, record), ActivityId)
  }

  lemma IdStaysStored(lib: Library, a: seq<Row>, b: seq<Row>, record: Record)
    requires a <= b && IdStored(lib, a, record)
    ensures IdStored(lib, b, record)
  {
    var row :| row in a && Get(row.record, ActivityId) == Get(StoredRecord(lib, record), ActivityId);
    assert row in b;
  }

  lemma StoredIdRefused(lib: Library, rows: seq<Row>, row: Row)
    requires IdStored(lib, rows, row.record)
    ensures !InsertActivity(lib, rows, row, true).1.Succeeded()
  {
    FindIsMember(rows, Get(StoredRecord(lib, row.record), ActivityId));
  }

  lemma DoomedWaits(lib: Library, a: Db, b: Db, writer: Writer)
    requires Grows(a, b) && Doomed(lib, a, writer)
    ensures Doomed(lib, b, writer)
  {
    if IdStored(lib, a.rows, writer.job.record) {
      IdStaysStored(lib, a.rows, b.rows, writer.job.record);
    }
  }

  lemma DoomedMoves(lib: Library, db: Db, w: nat, writer: Writer, fate: Fate)
    requires TableOk(db.rows) && WriterOk(lib, db, w, writer) && Doomed(lib, db, writer)
    ensures var effect := Stepped(lib, true, db, w, writer, fate); Doomed(lib, effect.db, effect.writer)
  {
    EffectOk(lib, true, db, w, writer, fate);
    if IdStored(lib, db.rows, writer.job.record) {
      IdStaysStored(lib, db.rows, Stepped(lib, true, db, w, writer, fate).db.rows, writer.job.record);
      if writer.phase.Inserting? && BeforeInsert(writer) {
        StoredIdRefused(lib, db.rows, writer.phase.row);
      }
    }
  }

  lemma DoomedStays(lib: Library, s: State, e: Event, w: nat)
    requires StateOk(lib, s) && w < |s.writers| && Doomed(lib, s.db, s.writers[w])
    ensures Doomed(lib, Step(lib, true, s, e).db, Step(lib, true, s, e).writers[w])
  {
    StepKeeps(lib, true, s, e);
    var writer, t := s.writers[w], Step(lib, true, s, e);
    if e.Advance? && e.writer == w {
      DoomedMoves(lib, s.db, w, writer, e.fate);
    } else {
      DoomedWaits(lib, s.db, t.db, writer);
    }
  }

  /**
    With the append-only trigger on, a retry cannot succeed: once the interaction is stored, or the
    activity itself is, a writer that has not yet passed that write is never accepted.
   */
  lemma {:induction false} TriggerDefeatsRetry(lib: Library, s: State, events: seq<Event>, w: nat)
    requires StateOk(lib, s) && w < |s.writers| && Doomed(lib, s.db, s.writers[w])
    ensures Doomed(lib, Run(lib, true, s, events).db, Run(lib, true, s, events).writers[w])
    ensures !Run(lib, true, s, events).writers[w].phase.Accepted?
  {
    if events != [] {
      var n := |events| - 1;
      TriggerDefeatsRetry(lib, s, events[..n], w);
      RunKeeps(lib, true, s, events[..n]);
      DoomedStays(lib, Run(lib, true, s, events[..n]), events[n], w);
    }
  }
}
