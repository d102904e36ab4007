/** When the chains that a run leaves verify: exactly while every row came from a record whose hash is stable. */
module ActivityLogSeals {
  import opened Common
  import opened JsonbValues
  import opened ActivityChain
  import opened ActivityStorage
  import opened ActivityLog
  import opened ActivityLogSafety

  /** The row is what storage made of this record, sealed with the hash of the record itself. */
  ghost predicate CameFrom(lib: Library, row: Row, record: Record) {
    && RecorderShape(record) && Storable(record)
    && row.record == StoredRecord(lib, record)
    && row.recordHash == RecordHash(lib, record, row.chainKey, row.chainSeq, row.prevRecordHash)
  }

  ghost predicate Genuine(lib: Library, pool: set<Record>, row: Row) {
    exists record :: record in pool && CameFrom(lib, row, record)
  }

  /** The row came from a record whose hash is stable. */
  ghost predicate FromSurvivor(lib: Library, pool: set<Record>, row: Row) {
    exists record :: record in pool && CameFrom(lib, row, record) && Survives(record)
  }

  /** A native row, sealed but not yet stored. */
  ghost predicate Computed(lib: Library, pool: set<Record>, row: Row) {
    && row.record in pool && RecorderShape(row.record)
    && row.recordHash == RecordHash(lib, row.record, row.chainKey, row.chainSeq, row.prevRecordHash)
  }

  ghost predicate WriteComputed(lib: Library, pool: set<Record>, write: Write) {
    write.ActivityWrite? ==> Computed(lib, pool, write.row)
  }

  ghost predicate WriterComputed(lib: Library, pool: set<Record>, writer: Writer) {
    && writer.job.record in pool && RecorderShape(writer.job.record)
    && (writer.phase.Inserting? ==> Computed(lib, pool, writer.phase.row))
  }

  /** Everything stored, under way or to be recorded stems from the pool. */
  ghost predicate Sourced(lib: Library, pool: set<Record>, s: State) {
    && (forall row :: row in s.db.rows ==> Genuine(lib, pool, row))
    && (forall write :: write in s.abandoned ==> WriteComputed(lib, pool, write))
    && (forall w :: 0 <= w < |s.writers| ==> WriterComputed(lib, pool, s.writers[w]))
  }

  // ---- Every run keeps its rows genuine ----

  lemma InsertSourced(lib: Library, trigger: bool, pool: set<Record>, rows: seq<Row>, row: Row)
    requires JsonbLaw(lib) && Computed(lib, pool, row)
    requires forall held :: held in rows ==> Genuine(lib, pool, held)
    ensures forall held :: held in InsertActivity(lib, rows, row, trigger).0 ==> Genuine(lib, pool, held)
  {
    if InsertActivity(lib, rows, row, trigger).1.Created? {
      TakenIffStorable(lib, row.record);
      assert CameFrom(lib, StoredRow(lib, row), row.record);
    }
  }

  lemma PerformSourced(lib: Library, trigger: bool, pool: set<Record>, db: Db, write: Write)
    requires JsonbLaw(lib) && WriteComputed(lib, pool, write)
    requires forall held :: held in db.rows ==> Genuine(lib, pool, held)
    ensures forall held :: held in Perform(lib, trigger, db, write).0.rows ==> Genuine(lib, pool, held)
  {
    if write.ActivityWrite? {
      InsertSourced(lib, trigger, pool, db.rows, write.row);
    }
  }

  lemma StepperSourced(lib: Library, trigger: bool, pool: set<Record>, db: Db, w: nat, writer: Writer, fate: Fate)
    requires JsonbLaw(lib) && WriterComputed(lib, pool, writer)
    requires forall held :: held in db.rows ==> Genuine(lib, pool, held)
    ensures var effect := Stepped(lib, trigger, db, w, writer, fate);
      && (forall held :: held in effect.db.rows ==> Genuine(lib, pool, held))
      && (forall write :: write in effect.abandoned ==> WriteComputed(lib, pool, write))
      && WriterComputed(lib, pool, effect.writer)
  {
    var next := NextWrite(w, writer);
    if next.Some? {
      assert WriteComputed(lib, pool, next.value);
      PerformSourced(lib, trigger, pool, db, next.value);
    }
  }

  lemma StepSourced(lib: Library, trigger: bool, pool: set<Record>, s: State, e: Event)
    requires JsonbLaw(lib) && Sourced(lib, pool, s)
    ensures Sourced(lib, pool, Step(lib, trigger, s, e))
  {
    match e
    case Arrive(write) =>
      if write in s.abandoned {
        PerformSourced(lib, trigger, pool, s.db, write);
      }
    case Advance(w, fate) =>
      if w < |s.writers| {
        StepperSourced(lib, trigger, pool, s.db, w, s.writers[w], fate);
      }
  }

  lemma {:induction false} RunSourced(lib: Library, trigger: bool, pool: set<Record>, s: State, events: seq<Event>)
    requires JsonbLaw(lib) && Sourced(lib, pool, s)
    ensures Sourced(lib, pool, Run(lib, trigger, s, events))
  {
    if events != [] {
      var n := |events| - 1;
      RunSourced(lib, trigger, pool, s, events[..n]);
      StepSourced(lib, trigger, pool, Run(lib, trigger, s, events[..n]), events[n]);
    }
  }

  // ---- Seals ----

  /** A stored row verifies in its place exactly when the record it came from has a stable hash. */
  lemma SealedIff(lib: Library, pool: set<Record>, row: Row)
    requires Assumed(lib) && CollisionFree(lib) && Genuine(lib, pool, row)
    ensures Sealed(lib, row.chainKey, row) <==> FromSurvivor(lib, pool, row)
  {
    forall record | record in pool && CameFrom(lib, row, record)
      ensures Sealed(lib, row.chainKey, row) <==> Survives(record)
    {
      HashStableIff(lib, record, row.chainKey, row.chainSeq, row.prevRecordHash);
    }
  }

  /** On a linked chain the only defect is a seal that does not fit. */
  lemma LinkedReport(lib: Library, key: string, chain: seq<Row>, r: Verification)
    requires Linked(chain) && Reports(lib, key, chain, r)
    ensures r.valid <==> forall row :: row in chain ==> Sealed(lib, key, row)
    ensures forall i :: 0 <= i < r.recordsChecked ==> Sealed(lib, key, chain[i])
    ensures !r.valid ==>
      && r == Verification(key, false, r.recordsChecked, Some(r.recordsChecked + 1), Some(HashMismatch))
      && !Sealed(lib, key, chain[r.recordsChecked])
  {
    var c := r.recordsChecked;
    ReportIsExact(lib, key, chain, r);
    IntactSplits(lib, key, chain);
    IntactPrefix(lib, key, chain, c);
    forall i | 0 <= i < c
      ensures Sealed(lib, key, chain[i])
    {
      assert Sound(lib, key, chain, i);
    }
    if !r.valid {
      assert LinkedAt(chain, c);
    }
  }

  /** What verification of one chain says, in terms of the records its rows came from. */
  ghost predicate ReportsOrigins(lib: Library, pool: set<Record>, rows: seq<Row>, key: string, r: Verification) {
    var c := r.recordsChecked;
    && (r.valid <==> forall row :: row in rows && row.chainKey == key ==> FromSurvivor(lib, pool, row))
    && (forall row :: row in rows && row.chainKey == key && row.chainSeq <= c ==> FromSurvivor(lib, pool, row))
    && (r.valid ==> r == Verification(key, true, |ChainRows(rows, key)|, None, None))
    && (!r.valid ==>
          && r == Verification(key, false, c, Some(c + 1), Some(HashMismatch))
          && exists row :: row in rows && row.chainKey == key && row.chainSeq == c + 1 && !FromSurvivor(lib, pool, row))
  }

  lemma ChainOrigins(lib: Library, pool: set<Record>, rows: seq<Row>, key: string)
    requires Assumed(lib) && CollisionFree(lib)
    requires forall row :: row in rows ==> Genuine(lib, pool, row)
    ensures forall row :: row in ChainRows(rows, key) <==> row in rows && row.chainKey == key
    ensures forall row :: row in ChainRows(rows, key) ==> (Sealed(lib, key, row) <==> FromSurvivor(lib, pool, row))
  {
    forall row
      ensures row in ChainRows(rows, key) <==> row in rows && row.chainKey == key
      ensures row in ChainRows(rows, key) ==> (Sealed(lib, key, row) <==> FromSurvivor(lib, pool, row))
    {
      ChainRowsSelects(rows, key, row);
      if row in ChainRows(rows, key) {
        SealedIff(lib, pool, row);
      }
    }
  }

  lemma ChainReport(lib: Library, pool: set<Record>, rows: seq<Row>, key: string, r: Verification)
    requires Assumed(lib) && CollisionFree(lib) && TableOk(rows)
    requires forall row :: row in rows ==> Genuine(lib, pool, row)
    requires Reports(lib, key, ChainRows(rows, key), r)
    ensures ReportsOrigins(lib, pool, rows, key, r)
  {
    var chain := ChainRows(rows, key);
    LinkedReport(lib, key, chain, r);
    ChainOrigins(lib, pool, rows, key);
    LinkedNumbers(chain);
    forall row | row in rows && row.chainKey == key && row.chainSeq <= r.recordsChecked
      ensures FromSurvivor(lib, pool, row)
    {
      var i :| 0 <= i < |chain| && chain[i] == row;
    }
    if !r.valid {
      assert chain[r.recordsChecked] in chain;
    }
  }

  lemma LinkedNumbers(chain: seq<Row>)
    requires Linked(chain)
    ensures forall i :: 0 <= i < |chain| ==> chain[i].chainSeq == i + 1
  {
    forall i | 0 <= i < |chain|
      ensures chain[i].chainSeq == i + 1
    {
      assert LinkedAt(chain, i);
    }
  }

  // ---- Main results ----

  /**
    After any run, verification of a chain is valid exactly when every row committed to it came from a record
    whose hash is stable. Otherwise it stops at the first that did not, with a hash mismatch and nothing else:
    no schedule, fault or late commit ever breaks a number or a link.
   */
  lemma EveryRunVerifies(lib: Library, trigger: bool, pool: set<Record>, s: State, events: seq<Event>, key: string,
                         r: Verification)
    requires Assumed(lib) && CollisionFree(lib) && Initial(s) && Sourced(lib, pool, s)
    requires Reports(lib, key, FetchChain(Run(lib, trigger, s, events).db.rows, key), r)
    ensures ReportsOrigins(lib, pool, Run(lib, trigger, s, events).db.rows, key, r)
  {
    EveryRunLinks(lib, trigger, s, events, key);
    RunKeeps(lib, trigger, s, events);
    RunSourced(lib, trigger, pool, s, events);
    ChainReport(lib, pool, Run(lib, trigger, s, events).db.rows, key, r);
  }

  /** With records that survive, every chain of every run verifies; this needs nothing of the digest. */
  lemma SurvivingRunVerifies(lib: Library, trigger: bool, pool: set<Record>, s: State, events: seq<Event>, key: string,
                             r: Verification)
    requires Assumed(lib) && Initial(s) && Sourced(lib, pool, s) && forall record :: record in pool ==> Survives(record)
    requires Reports(lib, key, FetchChain(Run(lib, trigger, s, events).db.rows, key), r)
    ensures r == Verification(key, true, |ChainRows(Run(lib, trigger, s, events).db.rows, key)|, None, None)
  {
    EveryRunLinks(lib, trigger, s, events, key);
    RunSourced(lib, trigger, pool, s, events);
    var rows := Run(lib, trigger, s, events).db.rows;
    var chain := ChainRows(rows, key);
    forall row | row in chain
      ensures Sealed(lib, key, row)
    {
      ChainRowsSelects(rows, key, row);
      var record :| record in pool && CameFrom(lib, row, record);
      HashStable(lib, record, key, row.chainSeq, row.prevRecordHash);
    }
    LinkedReport(lib, key, chain, r);
  }

  /** One undisturbed writer whose record does not survive: its row is stored, and its chain does not verify. */
  lemma UnstableRecordFails(lib: Library, record: Record, content: Json, r: Verification) returns (events: seq<Event>)
    requires Assumed(lib) && CollisionFree(lib)
    requires RecorderShape(record) && Storable(record) && HasRequired(record) && !Survives(record)
    ensures var rows := Run(lib, false, UnnamedStart(record, content), events).db.rows; var key := ChainKeyFor(record);
      && rows == OneRow(lib, record)
      && (Reports(lib, key, FetchChain(rows, key), r) ==> r == Verification(key, false, 0, Some(1), Some(HashMismatch)))
  {
    TakenIffStorable(lib, record);
    events := OnlyRowStored(lib, record, content);
    var key := ChainKeyFor(record);
    if Reports(lib, key, FetchChain(OneRow(lib, record), key), r) {
      OnlyRowFails(lib, record, r);
    }
  }

  lemma OnlyRowStored(lib: Library, record: Record, content: Json) returns (events: seq<Event>)
    requires HasRequired(record) && ServerTakes(lib, record)
    ensures Run(lib, false, UnnamedStart(record, content), events).db.rows == OneRow(lib, record)
  {
    var s0, rows := UnnamedStart(record, content), OneRow(lib, record);
    FindIsMember([], Get(StoredRecord(lib, record), ActivityId));
    var writer := Writer(UnnamedJob(record, content), Ensuring, 1);
    ThreeCalls(lib, s0, [], s0.db, writer, {}, Chained(lib, record, None), rows);
    var go := Advance(0, Acknowledged);
    events := [] + [go] + [go] + [go];
  }

  lemma OnlyRowFails(lib: Library, record: Record, r: Verification)
    requires Assumed(lib) && CollisionFree(lib)
    requires RecorderShape(record) && Storable(record) && HasRequired(record) && !Survives(record)
    requires Reports(lib, ChainKeyFor(record), FetchChain(OneRow(lib, record), ChainKeyFor(record)), r)
    ensures r == Verification(ChainKeyFor(record), false, 0, Some(1), Some(HashMismatch))
  {
    var rows, key := OneRow(lib, record), ChainKeyFor(record);
    OnlyRowUnsealed(lib, record);
    var row := rows[0];
    assert rows == [row] && rows[..0] == [];
    assert ChainRows(rows, key) == rows;
    assert LinkedAt(rows, 0);
    OrderedStaysPut(rows);
    LinkedReport(lib, key, rows, r);
    assert row in rows;
  }

  lemma OnlyRowUnsealed(lib: Library, record: Record)
    requires Assumed(lib) && CollisionFree(lib)
    requires RecorderShape(record) && Storable(record) && HasRequired(record) && !Survives(record)
    ensures var row := OneRow(lib, record)[0];
      row.chainKey == ChainKeyFor(record) && !Sealed(lib, row.chainKey, row)
  {
    HashStableIff(lib, record, ChainKeyFor(record), 1, None);
  }
}
