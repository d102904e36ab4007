/** The columns of an activity by value: what the hash binds, an upsert compares and refuses, and the table holds. */
module ActivityColumns {
  import opened Common
  import opened JsonbValues
  import opened ActivityChain
  import opened ActivityStorage
  import opened ActivityLog
  import opened ActivityLogSafety

  // ---- What the hash binds ----

  /** Text that is hashed as it stands: it does not parse, or does not open like JSON. */
  predicate PlainText(lib: Library, text: string) {
    lib.loads(text).None? || (text != "" && !IsSpace(text[0]) && text[0] != '{' && text[0] != '[')
  }

  /** Text that is hashed as what it parses to. */
  predicate JsonText(lib: Library, text: string) {
    text != "" && (text[0] == '{' || text[0] == '[') && lib.loads(text).Some?
  }

  /** Two column values that read differently, told from the values; one way round. */
  predicate ReadsApart(lib: Library, a: Value, b: Value) {
    match (a, b)
    case (Null, Text(text)) => PlainText(lib, text) || (JsonText(lib, text) && lib.loads(text).value != JNull)
    case (Null, Native(json)) => json != JNull
    case (Null, Time(_)) => true
    case (Text(s), Text(t)) =>
      || (PlainText(lib, s) && PlainText(lib, t) && s != t)
      || (JsonText(lib, s) && JsonText(lib, t) && lib.loads(s) != lib.loads(t))
      || (PlainText(lib, s) && JsonText(lib, t) && Container(lib.loads(t).value))
    case (Text(s), Native(json)) =>
      (PlainText(lib, s) && Container(json)) || (JsonText(lib, s) && lib.loads(s) != Some(json))
    case (Text(s), Time(at)) =>
      (PlainText(lib, s) && s != lib.isoformat(at)) || (JsonText(lib, s) && Container(lib.loads(s).value))
    case (Native(j), Native(k)) => j != k
    case (Native(json), Time(_)) => Container(json)
    case (Time(s), Time(t)) => s != t
    case _ => false
  }

  /** Different text, absent against present, another instant or offset, another JSON value. */
  predicate Apart(lib: Library, a: Value, b: Value) {
    ReadsApart(lib, a, b) || ReadsApart(lib, b, a)
  }

  lemma VisibleHead(text: string)
    requires text != "" && !IsSpace(text[0])
    ensures LooksLikeJson(text) <==> text[0] == '{' || text[0] == '['
  {
    StripRightKeepsHead(text);
  }

  lemma PlainStands(lib: Library, text: string)
    ensures PlainText(lib, text) ==> CanonicalValue(lib, Text(text)) == JStr(text)
    ensures JsonText(lib, text) ==> CanonicalValue(lib, Text(text)) == lib.loads(text).value
  {
    if text != "" && !IsSpace(text[0]) {
      VisibleHead(text);
    }
  }

  lemma ApartIsCanonical(lib: Library, a: Value, b: Value)
    requires FaithfulIso(lib) && Apart(lib, a, b)
    ensures CanonicalValue(lib, a) != CanonicalValue(lib, b)
  {
    if a.Text? {
      PlainStands(lib, a.text);
    }
    if b.Text? {
      PlainStands(lib, b.text);
    }
  }

  lemma ApartPayload(lib: Library, a: Record, b: Record, field: Field)
    requires FaithfulIso(lib) && Apart(lib, Get(a, field), Get(b, field))
    ensures CanonicalPayload(lib, a) != CanonicalPayload(lib, b)
  {
    ApartIsCanonical(lib, Get(a, field), Get(b, field));
    assert CanonicalPayload(lib, a)[field] != CanonicalPayload(lib, b)[field];
  }

  /** Equal hashes: every column reads the same, under one key, at one place, after one predecessor. */
  lemma HashBindsEverything(lib: Library, a: Record, b: Record, keyA: string, keyB: string, seqA: int, seqB: int,
                            prevA: Option<string>, prevB: Option<string>)
    requires CollisionFree(lib) && FaithfulIso(lib)
    requires RecordHash(lib, a, keyA, seqA, prevA) == RecordHash(lib, b, keyB, seqB, prevB)
    ensures keyA == keyB && seqA == seqB && prevA == prevB
    ensures forall field: Field :: !Apart(lib, Get(a, field), Get(b, field))
  {
    assert HashInput(CanonicalPayload(lib, a), keyA, seqA, prevA)
      == HashInput(CanonicalPayload(lib, b), keyB, seqB, prevB);
    forall field: Field | Apart(lib, Get(a, field), Get(b, field))
      ensures false
    {
      ApartPayload(lib, a, b, field);
    }
  }

  /** Whichever of the columns a row is rewritten in, the verifier stops at it. */
  lemma ColumnAlterationSeen(lib: Library, key: string, rows: seq<Row>, i: nat, record: Record, field: Field,
                             r: Verification)
    requires CollisionFree(lib) && FaithfulIso(lib) && Intact(lib, key, rows) && i < |rows|
    requires Apart(lib, Get(rows[i].record, field), Get(record, field))
    requires Reports(lib, key, rows[i := rows[i].(record := record)], r)
    ensures r == Verification(key, false, i, Some(i + 1), Some(HashMismatch))
  {
    ApartPayload(lib, rows[i].record, record, field);
    AlterationLocalised(lib, key, rows, i, record, r);
  }

  /** Rewriting a chain column: the number is a gap, the link is a broken link, the hash no longer fits. */
  lemma ChainColumnAlterationSeen(lib: Library, key: string, rows: seq<Row>, i: nat, row: Row, r: Verification)
    requires Intact(lib, key, rows) && i < |rows| && Reports(lib, key, rows[i := row], r)
    ensures row.chainSeq != rows[i].chainSeq ==>
      r == Verification(key, false, i, Some(row.chainSeq), Some(SequenceGap))
    ensures row == rows[i].(prevRecordHash := row.prevRecordHash) && row != rows[i] ==>
      r == Verification(key, false, i, Some(i + 1), Some(PrevHashMismatch))
    ensures row == rows[i].(recordHash := row.recordHash) && row != rows[i] ==>
      r == Verification(key, false, i, Some(i + 1), Some(HashMismatch))
  {
    var bad := rows[i := row];
    assert bad[..i] == rows[..i];
    IntactPrefix(lib, key, rows, i);
    assert Sound(lib, key, rows, i);
    if Defect(lib, key, bad, i).Some? {
      ReportAt(lib, key, bad, r, i);
    }
  }

  /** A chain moved to another key fails at its first row. */
  lemma OtherKeySeen(lib: Library, key: string, other: string, rows: seq<Row>, r: Verification)
    requires CollisionFree(lib) && FaithfulIso(lib) && Intact(lib, key, rows) && rows != [] && key != other
    requires Reports(lib, other, rows, r)
    ensures r == Verification(other, false, 0, Some(1), Some(HashMismatch))
  {
    assert Sound(lib, key, rows, 0);
    if RecordHash(lib, rows[0].record, other, 1, None) == RecordHash(lib, rows[0].record, key, 1, None) {
      HashBindsEverything(lib, rows[0].record, rows[0].record, other, key, 1, 1, None, None);
    }
    ReportAt(lib, other, rows, r, 0);
  }

  /** Two chains that verify under one key and end in the same hash read the same, column by column. */
  lemma HeadDeterminesColumns(lib: Library, key: string, a: seq<Row>, b: seq<Row>)
    requires CollisionFree(lib) && FaithfulIso(lib)
    requires Intact(lib, key, a) && Intact(lib, key, b) && a != [] && b != []
    requires a[|a| - 1].recordHash == b[|b| - 1].recordHash
    ensures |a| == |b|
    ensures forall i, field: Field :: 0 <= i < |a| ==> !Apart(lib, Get(a[i].record, field), Get(b[i].record, field))
  {
    HeadDeterminesHistory(lib, key, a, b);
    forall i, field: Field | 0 <= i < |a|
      ensures !Apart(lib, Get(a[i].record, field), Get(b[i].record, field))
    {
      assert SameSealedRow(lib, a[i], b[i]);
      if Apart(lib, Get(a[i].record, field), Get(b[i].record, field)) {
        ApartPayload(lib, a[i].record, b[i].record, field);
      }
    }
  }

  // ---- What an upsert compares ----

  /** Two values of one column that the server tells apart, read off the values as they were written. */
  predicate Changed(a: Value, b: Value) {
    match (a, b)
    case (Null, Null) => false
    case (Text(s), Text(t)) => s != t
    case (Time(s), Time(t)) => s.micros != t.micros
    case (Native(j), Native(k)) => !SameValue(j, k)
    case _ => true
  }

  /** The column of a recorded activity that the server can hold. */
  predicate Fits(field: Field, value: Value) {
    ColumnShape(field, value) && (value.Native? ==> JsonStorable(value.json))
  }

  lemma StoredJson(lib: Library, field: Field, json: Json)
    requires JsonbLaw(lib) && Fits(field, Native(json))
    ensures var stored := StoredValue(lib, field, Native(json));
      stored.Text? && lib.loads(stored.text) == Some(Renumbered(json))
  {}

  lemma ChangedIff(lib: Library, field: Field, a: Value, b: Value)
    requires JsonbLaw(lib) && Fits(field, a) && Fits(field, b)
    ensures SameColumn(lib, field, StoredValue(lib, field, a), StoredValue(lib, field, b)) <==> !Changed(a, b)
  {
    if a.Native? {
      StoredJson(lib, field, a.json);
    }
    if b.Native? {
      StoredJson(lib, field, b.json);
    }
    if a.Native? && b.Native? {
      RenumberedSame(a.json);
      RenumberedSame(b.json);
      ComparedIff(a.json, b.json);
    }
  }

  predicate AllFit(record: Record) {
    forall field: Field :: Fits(field, Get(record, field))
  }

  /** Some compared column, that is any but the id itself, has changed. */
  ghost predicate ContentChanged(a: Record, b: Record) {
    exists field: Field :: field != ActivityId && Changed(Get(a, field), Get(b, field))
  }

  lemma ContentChangedIff(lib: Library, a: Record, b: Record)
    requires JsonbLaw(lib) && AllFit(a) && AllFit(b)
    ensures SameContent(lib, StoredRecord(lib, a), StoredRecord(lib, b)) <==> !ContentChanged(a, b)
  {
    var x, y := StoredRecord(lib, a), StoredRecord(lib, b);
    forall field: Field
      ensures SameColumn(lib, field, Get(x, field), Get(y, field)) <==> !Changed(Get(a, field), Get(b, field))
    {
      ChangedIff(lib, field, Get(a, field), Get(b, field));
    }
  }

  /** An id that is stored, written again: a conflict exactly when some other column has changed. */
  lemma RepeatedWriteByColumn(lib: Library, trigger: bool, rows: seq<Row>, row: Row, held: Row, first: Record)
    requires JsonbLaw(lib) && UniqueIds(rows) && held in rows && held.record == StoredRecord(lib, first)
    requires AllFit(first) && AllFit(row.record) && Get(first, ActivityId) == Get(row.record, ActivityId)
    requires HasRequired(row.record) && ServerTakes(lib, row.record)
    ensures InsertActivity(lib, rows, row, trigger)
      == (rows, if ContentChanged(first, row.record) then Conflict
                else if trigger then TriggerRejected else AlreadyStored)
  {
    ContentChangedIff(lib, first, row.record);
    RepeatedInsert(lib, trigger, rows, row, held);
  }

  /** A package that reuses a stored id with any other column changed is never accepted, in any run. */
  lemma ChangedNeverAccepted(lib: Library, trigger: bool, s: State, events: seq<Event>, w: nat, held: Row,
                             first: Record)
    requires JsonbLaw(lib) && StateOk(lib, s) && w < |s.writers| && held in s.db.rows
    requires held.record == StoredRecord(lib, first) && AllFit(first) && AllFit(s.writers[w].job.record)
    requires Get(first, ActivityId) == Get(s.writers[w].job.record, ActivityId)
    requires ContentChanged(first, s.writers[w].job.record)
    ensures !Run(lib, trigger, s, events).writers[w].phase.Accepted?
    ensures held in Run(lib, trigger, s, events).db.rows
  {
    ContentChangedIff(lib, first, s.writers[w].job.record);
    ReuseNeverAccepted(lib, trigger, s, events, w, held);
  }

  // ---- What the table holds of an accepted record ----

  /** The stored column holds the written one: the same text, the same instant in UTC, the same JSON value. */
  predicate Holds(lib: Library, held: Value, written: Value) {
    match written
    case Null => held == Null
    case Text(text) => held == Text(text)
    case Time(at) => held == Time(Timestamp(at.micros, Some(0)))
    case Native(json) =>
      held.Text? && lib.loads(held.text).Some? && SameValue(lib.loads(held.text).value, json)
  }

  lemma SameColumnHolds(lib: Library, field: Field, held: Value, written: Value)
    requires JsonbLaw(lib) && Fits(field, written)
    requires SameColumn(lib, field, held, StoredValue(lib, field, written))
    ensures Holds(lib, held, written)
  {
    if written.Native? {
      StoredJson(lib, field, written.json);
      RenumberedSame(written.json);
      ComparedIff(lib.loads(held.text).value, written.json);
    }
  }

  lemma StoredColumns(lib: Library, rows: seq<Row>, record: Record) returns (row: Row)
    requires JsonbLaw(lib) && AllFit(record) && RecordStored(lib, rows, record)
    ensures row in rows && forall field: Field :: Holds(lib, Get(row.record, field), Get(record, field))
  {
    row :| row in rows && Agrees(lib, row.record, StoredRecord(lib, record));
    forall field: Field
      ensures Holds(lib, Get(row.record, field), Get(record, field))
    {
      var stored := StoredRecord(lib, record);
      assert Get(stored, field) == StoredValue(lib, field, Get(record, field));
      assert field != ActivityId ==> SameColumn(lib, field, Get(row.record, field), Get(stored, field));
      assert field == ActivityId ==> Get(row.record, field) == Get(stored, field);
      SameColumnHolds(lib, field, Get(row.record, field), Get(record, field));
    }
  }

  /** What the adapter or the server refuses never gets past its insert. */
  lemma {:induction false} RefusedWaits(lib: Library, trigger: bool, s: State, events: seq<Event>, w: nat)
    requires Initial(s) && w < |s.writers| && !Insertable(lib, s.writers[w].job.record)
    ensures var writer := Run(lib, trigger, s, events).writers[w];
      && writer.job == s.writers[w].job && !writer.phase.Relating? && !writer.phase.Accepted?
      && (writer.phase.Inserting? ==> writer.phase.row.record == writer.job.record)
  {
    if events != [] {
      RefusedWaits(lib, trigger, s, events[..|events| - 1], w);
    }
  }

  /** An accepted activity is in the table, and each of its columns is what was written. */
  lemma AcceptedHolds(lib: Library, trigger: bool, s: State, events: seq<Event>, w: nat) returns (row: Row)
    requires JsonbLaw(lib) && Initial(s) && w < |s.writers| && RecorderShape(s.writers[w].job.record)
    requires Run(lib, trigger, s, events).writers[w].phase.Accepted?
    ensures row in Run(lib, trigger, s, events).db.rows
    ensures forall field: Field :: Holds(lib, Get(row.record, field), Get(s.writers[w].job.record, field))
  {
    var record := s.writers[w].job.record;
    AcceptedMeansComplete(lib, trigger, s, events, w);
    if !Insertable(lib, record) {
      RefusedWaits(lib, trigger, s, events, w);
    }
    TakenIffStorable(lib, record);
    ShapeFits(record);
    row := StoredColumns(lib, Run(lib, trigger, s, events).db.rows, record);
  }

  lemma ShapeFits(record: Record)
    requires RecorderShape(record) && Storable(record)
    ensures AllFit(record)
  {
    forall field: Field
      ensures Fits(field, Get(record, field))
    {
      assert ColumnShape(field, Get(record, field));
    }
  }

  // ---- What an insert refuses ----

  /** An activity is turned away for a missing column exactly when one of these twelve is missing. */
  lemma MissingColumns(lib: Library, trigger: bool, rows: seq<Row>, row: Row)
    ensures InsertActivity(lib, rows, row, trigger) == (rows, MissingField) <==>
      exists field: Field :: Get(row.record, field) == Null
        && (field.ActivityId? || field.DomainArea? || field.TargetType? || field.TargetId? || field.ActionFamily?
            || field.Action? || field.LifecyclePhase? || field.Outcome? || field.Durability? || field.EventLabel?
            || field.PrimaryTarget? || field.OccurredAt?)
  {}

  /** Text with a NUL in it, or JSON with a NUL, a NaN or an infinity anywhere inside, never reaches the table. */
  lemma UntakableRefused(lib: Library, trigger: bool, rows: seq<Row>, row: Row, field: Field)
    requires JsonbLaw(lib) && RecorderShape(row.record) && HasRequired(row.record)
    requires match Get(row.record, field)
             case Text(text) => '\0' in text
             case Native(json) => exists part :: Within(part, json) && Untakable(part)
             case _ => false
    ensures InsertActivity(lib, rows, row, trigger) == (rows, Refused)
  {
    TakenIffStorable(lib, row.record);
    match Get(row.record, field)
    case Native(json) => StorableIff(json);
    case _ =>
  }

  /** An activity of a project goes to the project's chain, any other to the one called global. */
  lemma ChainKeyMeans(record: Record)
    ensures ChainKeyFor(record) ==
      match Get(record, ProjectId) case Text(project) => (if project == "" then "global" else project)
        case _ => "global"
  {}

  /** The recorder's columns: structures in five, instants in two, text in the others; each may be absent. */
  lemma ShapeMeans(record: Record)
    ensures RecorderShape(record) <==>
      forall field: Field ::
        match Get(record, field)
        case Null => true
        case Native(json) =>
          && field in {PrimaryTarget, RelatedTargets, ActorOverride, ReconstructionRefs, Metadata}
          && (json.JArr? || json.JObj?)
        case Time(_) => field in {RetentionExpiresAt, OccurredAt}
        case Text(_) => field !in {PrimaryTarget, RelatedTargets, ActorOverride, ReconstructionRefs, Metadata}
  {
    if RecorderShape(record) {
      forall field: Field
        ensures ColumnShape(field, Get(record, field))
      {}
    }
  }
}
