/** The PostgreSQL storage adapter (activity/storage.py): column conversion, upserts and chain queries. */
module ActivityStorage {
  import opened Common
  import opened JsonbValues
  import opened ActivityChain

  // ---- Column conversion ----

  predicate JsonbColumn(field: Field) {
    field in {PrimaryTarget, RelatedTargets, ActorOverride, ReconstructionRefs, Metadata}
  }

  predicate TimeColumn(field: Field) {
    field in {RetentionExpiresAt, OccurredAt}
  }

  predicate RequiredColumn(field: Field) {
    field in {ActivityId, DomainArea, TargetType, TargetId, ActionFamily, Action, LifecyclePhase,
      ActivityChain.Outcome, Durability, EventLabel, PrimaryTarget, OccurredAt}
  }

  /** What is handed to the driver: structures become JSON text, everything else is passed as it is. */
  function StorageValue(lib: Library, field: Field, value: Value): Value {
    if !JsonbColumn(field) then value
    else match value
      case Native(json) => Text(lib.dumps(json))
      case Time(at) => Text(lib.dumps(JStr(lib.str(at))))
      case _ => value
  }

  function ToUtc(at: Timestamp): Timestamp {
    Timestamp(at.micros, Some(0))
  }

  /** What a SELECT gives back: jsonb is re-rendered by the server, instants come back in UTC. */
  function ReadBack(lib: Library, field: Field, sent: Value): Value {
    match sent
    case Time(at) => Time(ToUtc(at))
    case Text(text) =>
      if JsonbColumn(field) then
        match lib.jsonb(text)
        case Some(rendered) => Text(rendered)
        case None => Null // refused by the server, so never read back
      else sent
    case _ => sent
  }

  function StoredValue(lib: Library, field: Field, value: Value): Value {
    ReadBack(lib, field, StorageValue(lib, field, value))
  }

  function StoredRecord(lib: Library, record: Record): Record {
    map field: Field :: StoredValue(lib, field, Get(record, field))
  }

  /** The server takes every parameter: well-formed jsonb, and text without NUL. */
  predicate ServerTakes(lib: Library, record: Record) {
    forall field: Field ::
      match StorageValue(lib, field, Get(record, field))
      case Text(text) => if JsonbColumn(field) then lib.jsonb(text).Some? else TextStorable(text)
      case _ => true
  }

  predicate Container(json: Json) {
    json.JArr? || json.JObj?
  }

  /**
    json.dumps, a jsonb column and json.loads in a row: a value that jsonb takes comes back renumbered, any
    other is refused; and a rendered container opens with its bracket.
   */
  ghost predicate JsonbLaw(lib: Library) {
    forall j ::
      && (JsonStorable(j) <==> lib.jsonb(lib.dumps(j)).Some?)
      && (JsonStorable(j) ==>
            && lib.loads(lib.jsonb(lib.dumps(j)).value) == Some(Renumbered(j))
            && (Container(j) ==> LooksLikeJson(lib.jsonb(lib.dumps(j)).value)))
  }

  /** ISO text never reads as JSON, and names the instant it was written from, and its offset or that it had none. */
  ghost predicate FaithfulIso(lib: Library) {
    && (forall t :: !LooksLikeJson(lib.isoformat(t)))
    && (forall t: Timestamp, u: Timestamp :: lib.isoformat(t) == lib.isoformat(u) ==> t == u)
  }

  ghost predicate Assumed(lib: Library) {
    JsonbLaw(lib) && FaithfulIso(lib)
  }

  /** The column shapes that the recorder builds; neither offsets nor numbers are restricted here. */
  predicate ColumnShape(field: Field, value: Value) {
    match value
    case Null => true
    case Native(json) => JsonbColumn(field) && Container(json)
    case Time(_) => TimeColumn(field)
    case Text(_) => !JsonbColumn(field)
  }

  predicate RecorderShape(record: Record) {
    forall field: Field :: ColumnShape(field, Get(record, field))
  }

  /** One column comes back with the canonical value it went in with. */
  predicate ColumnSurvives(value: Value) {
    match value
    case Time(at) => at.offset == Some(0)
    case Native(json) => NumbersSurvive(json)
    case _ => true
  }

  /** Every datetime is written in UTC, and every number is one that jsonb writes as Python does. */
  predicate Survives(record: Record) {
    forall field: Field :: ColumnSurvives(Get(record, field))
  }

  /** What jsonb and text columns can hold. */
  predicate Storable(record: Record) {
    forall field: Field ::
      match Get(record, field)
      case Native(json) => JsonStorable(json)
      case Text(text) => TextStorable(text)
      case _ => true
  }

  /** For the recorder's records, what the server takes can be told from the values. */
  lemma TakenIffStorable(lib: Library, record: Record)
    requires JsonbLaw(lib) && RecorderShape(record)
    ensures ServerTakes(lib, record) <==> Storable(record)
  {
    forall field: Field
      ensures (match StorageValue(lib, field, Get(record, field))
               case Text(text) => if JsonbColumn(field) then lib.jsonb(text).Some? else TextStorable(text)
               case _ => true)
         <==> (match Get(record, field)
               case Native(json) => JsonStorable(json)
               case Text(text) => TextStorable(text)
               case _ => true)
    {
      assert ColumnShape(field, Get(record, field));
    }
  }

  lemma ColumnStable(lib: Library, field: Field, value: Value)
    requires Assumed(lib) && ColumnShape(field, value) && (value.Native? ==> JsonStorable(value.json))
    ensures CanonicalValue(lib, StoredValue(lib, field, value)) == CanonicalValue(lib, value) <==> ColumnSurvives(value)
  {
    match value
    case Time(at) =>
      if lib.isoformat(at) == lib.isoformat(ToUtc(at)) {
        assert at == ToUtc(at);
      }
    case Native(json) => RenumberedIff(json);
    case _ =>
  }

  /**
    A record hash survives storage and read-back exactly when every datetime is in UTC and no number is one
    that jsonb writes differently.
   */
  lemma HashStableIff(lib: Library, record: Record, key: string, chainSeq: int, prev: Option<string>)
    requires Assumed(lib) && CollisionFree(lib) && RecorderShape(record) && Storable(record)
    ensures RecordHash(lib, StoredRecord(lib, record), key, chainSeq, prev)
      == RecordHash(lib, record, key, chainSeq, prev)
      <==> Survives(record)
  {
    var stored := StoredRecord(lib, record);
    DigestSeparates(lib,
      HashInput(CanonicalPayload(lib, stored), key, chainSeq, prev),
      HashInput(CanonicalPayload(lib, record), key, chainSeq, prev));
    PayloadStableIff(lib, record);
  }

  lemma PayloadStableIff(lib: Library, record: Record)
    requires Assumed(lib) && RecorderShape(record) && Storable(record)
    ensures CanonicalPayload(lib, StoredRecord(lib, record)) == CanonicalPayload(lib, record) <==> Survives(record)
  {
    var stored := StoredRecord(lib, record);
    forall field: Field
      ensures CanonicalPayload(lib, stored)[field] == CanonicalPayload(lib, record)[field]
        <==> ColumnSurvives(Get(record, field))
    {
      assert Get(stored, field) == StoredValue(lib, field, Get(record, field));
      ColumnStable(lib, field, Get(record, field));
    }
    if Survives(record) {
      assert CanonicalPayload(lib, stored) == CanonicalPayload(lib, record);
    }
  }

  /** The direction the chain relies on, which needs no assumption about collisions. */
  lemma HashStable(lib: Library, record: Record, key: string, chainSeq: int, prev: Option<string>)
    requires Assumed(lib) && RecorderShape(record) && Storable(record) && Survives(record)
    ensures RecordHash(lib, StoredRecord(lib, record), key, chainSeq, prev)
      == RecordHash(lib, record, key, chainSeq, prev)
  {
    PayloadStableIff(lib, record);
  }

  /** A nanosecond timestamp kept as a float in the metadata changes the hash, whatever else the record holds. */
  lemma WideFloatChangesHash(lib: Library, record: Record, units: int, key: string, chainSeq: int,
                             prev: Option<string>)
    requires Assumed(lib) && CollisionFree(lib) && RecorderShape(record) && Storable(record)
    requires Wide(units) && Get(record, Metadata) == Native(JObj(map["deadline_ns" := JFloat(Finite(units))]))
    ensures RecordHash(lib, StoredRecord(lib, record), key, chainSeq, prev)
      != RecordHash(lib, record, key, chainSeq, prev)
  {
    var fields := map["deadline_ns" := JFloat(Finite(units))];
    assert "deadline_ns" in fields && !NumbersSurvive(fields["deadline_ns"]);
    assert !ColumnSurvives(Get(record, Metadata));
    HashStableIff(lib, record, key, chainSeq, prev);
  }

  // ---- Upserts ----

  /** How one statement ends. Only Created and AlreadyStored are reported to the caller as success. */
  datatype WriteOutcome =
    | Created | AlreadyStored | Conflict | TriggerRejected | PositionTaken | MissingField | Refused
  {
    predicate Succeeded() {
      Created? || AlreadyStored?
    }
  }

  /**
    INSERT .. ON CONFLICT (key) DO UPDATE SET key = key WHERE the compared content is the same. The content is
    the compared columns, as the server compares them.
   */
  function Upsert<K, V(==)>(table: map<K, V>, key: K, content: V, trigger: bool): (map<K, V>, WriteOutcome) {
    if key !in table then (table[key := content], Created)
    else if table[key] != content then (table, Conflict)
    else if trigger then (table, TriggerRejected)
    else (table, AlreadyStored)
  }

  function Find(rows: seq<Row>, id: Value): Option<Row> {
    if rows == [] then None
    else if Get(rows[|rows| - 1].record, ActivityId) == id then Some(rows[|rows| - 1])
    else Find(rows[..|rows| - 1], id)
  }

  /** The unique index on (chain_key, chain_seq) has an entry. */
  predicate Occupied(rows: seq<Row>, key: string, chainSeq: int) {
    exists row :: row in rows && row.chainKey == key && row.chainSeq == chainSeq
  }

  /** IS NOT DISTINCT FROM: jsonb compares numbers by value. */
  predicate SameColumn(lib: Library, field: Field, a: Value, b: Value) {
    if JsonbColumn(field) && a.Text? && b.Text? && lib.loads(a.text).Some? && lib.loads(b.text).Some?
    then Compared(lib.loads(a.text).value) == Compared(lib.loads(b.text).value)
    else a == b
  }

  /** The compared columns: every one but the key and the chain columns. */
  predicate SameContent(lib: Library, stored: Record, incoming: Record) {
    forall field: Field :: field != ActivityId ==> SameColumn(lib, field, Get(stored, field), Get(incoming, field))
  }

  predicate HasRequired(record: Record) {
    forall field: Field :: RequiredColumn(field) ==> Get(record, field) != Null
  }

  /** A native row as the table will hold it. */
  function StoredRow(lib: Library, row: Row): Row {
    row.(record := StoredRecord(lib, row.record))
  }

  /** The arbiter index on activity_id decides first; the chain index is consulted only for a new id. */
  function InsertActivity(lib: Library, rows: seq<Row>, row: Row, trigger: bool): (seq<Row>, WriteOutcome) {
    if !HasRequired(row.record) then (rows, MissingField)
    else if !ServerTakes(lib, row.record) then (rows, Refused)
    else
      var incoming := StoredRow(lib, row);
      match Find(rows, Get(incoming.record, ActivityId))
      case Some(present) =>
        if !SameContent(lib, present.record, incoming.record) then (rows, Conflict)
        else if trigger then (rows, TriggerRejected)
        else (rows, AlreadyStored)
      case None =>
        if Occupied(rows, row.chainKey, row.chainSeq) then (rows, PositionTaken)
        else (rows + [incoming], Created)
  }

  // ---- Queries ----

  function ChainRows(rows: seq<Row>, key: string): seq<Row> {
    if rows == [] then []
    else
      var last := rows[|rows| - 1];
      ChainRows(rows[..|rows| - 1], key) + if last.chainKey == key then [last] else []
  }

  function InsertBySeq(row: Row, sorted: seq<Row>): seq<Row> {
    if sorted == [] || row.chainSeq >= sorted[|sorted| - 1].chainSeq then sorted + [row]
    else InsertBySeq(row, sorted[..|sorted| - 1]) + [sorted[|sorted| - 1]]
  }

  function OrderBySeq(rows: seq<Row>): seq<Row> {
    if rows == [] then [] else InsertBySeq(rows[|rows| - 1], OrderBySeq(rows[..|rows| - 1]))
  }

  /** SELECT .. WHERE chain_key = $1 ORDER BY chain_seq ASC. */
  function FetchChain(rows: seq<Row>, key: string): seq<Row> {
    OrderBySeq(ChainRows(rows, key))
  }

  datatype ChainHead = ChainHead(chainSeq: int, recordHash: string)

  /** ORDER BY chain_seq DESC LIMIT 1. */
  function HeadOf(rows: seq<Row>, key: string): Option<ChainHead> {
    var chain := FetchChain(rows, key);
    if chain == [] then None else Some(ChainHead(chain[|chain| - 1].chainSeq, chain[|chain| - 1].recordHash))
  }

  /** _chain_activity_record: the next position after the head that was read. */
  function Chained(lib: Library, record: Record, head: Option<ChainHead>): Row {
    var key := ChainKeyFor(record);
    var prev := if head.Some? then Some(head.value.recordHash) else None;
    var chainSeq := (if head.Some? then head.value.chainSeq else 0) + 1;
    Row(record, key, chainSeq, prev, RecordHash(lib, record, key, chainSeq, prev))
  }

  ghost predicate InSequence(rows: seq<Row>) {
    forall i, j :: 0 <= i < j < |rows| ==> rows[i].chainSeq <= rows[j].chainSeq
  }

  lemma {:induction false} InsertSorts(row: Row, sorted: seq<Row>)
    requires InSequence(sorted)
    ensures InSequence(InsertBySeq(row, sorted))
    decreases |sorted|
  {
    if sorted != [] && row.chainSeq < sorted[|sorted| - 1].chainSeq {
      var n := |sorted| - 1;
      InsertSorts(row, sorted[..n]);
      InsertBounded(row, sorted[..n], sorted[n].chainSeq);
    }
  }

  lemma {:induction false} InsertAdds(row: Row, sorted: seq<Row>)
    ensures multiset(InsertBySeq(row, sorted)) == multiset(sorted) + multiset{row}
    decreases |sorted|
  {
    if sorted != [] && row.chainSeq < sorted[|sorted| - 1].chainSeq {
      var n := |sorted| - 1;
      assert sorted == sorted[..n] + [sorted[n]];
      InsertAdds(row, sorted[..n]);
    }
  }

  lemma {:induction false} InsertBounded(row: Row, sorted: seq<Row>, bound: int)
    requires row.chainSeq <= bound && forall other :: other in sorted ==> other.chainSeq <= bound
    ensures forall other :: other in InsertBySeq(row, sorted) ==> other.chainSeq <= bound
    decreases |sorted|
  {
    if sorted != [] && row.chainSeq < sorted[|sorted| - 1].chainSeq {
      InsertBounded(row, sorted[..|sorted| - 1], bound);
    }
  }

  lemma {:induction false} OrderSorts(rows: seq<Row>)
    ensures InSequence(OrderBySeq(rows)) && multiset(OrderBySeq(rows)) == multiset(rows)
    decreases |rows|
  {
    if rows != [] {
      var n := |rows| - 1;
      assert rows == rows[..n] + [rows[n]];
      OrderSorts(rows[..n]);
      InsertSorts(rows[n], OrderBySeq(rows[..n]));
      InsertAdds(rows[n], OrderBySeq(rows[..n]));
    }
  }

  lemma {:induction false} ChainRowsCount(rows: seq<Row>, key: string, row: Row)
    ensures multiset(ChainRows(rows, key))[row] == if row.chainKey == key then multiset(rows)[row] else 0
    decreases |rows|
  {
    if rows != [] {
      var n := |rows| - 1;
      assert rows == rows[..n] + [rows[n]];
      ChainRowsCount(rows[..n], key, row);
    }
  }

  /** Of any table, whatever has been done to it, the chain query returns the key's rows in sequence order. */
  lemma FetchReturns(rows: seq<Row>, key: string, row: Row)
    ensures InSequence(FetchChain(rows, key))
    ensures multiset(FetchChain(rows, key))[row] == if row.chainKey == key then multiset(rows)[row] else 0
  {
    OrderSorts(ChainRows(rows, key));
    ChainRowsCount(rows, key, row);
  }

  lemma InsertLast(row: Row, sorted: seq<Row>)
    requires sorted == [] || row.chainSeq >= sorted[|sorted| - 1].chainSeq
    ensures InsertBySeq(row, sorted) == sorted + [row]
  {}

  lemma {:induction false} OrderedStaysPut(rows: seq<Row>)
    requires Linked(rows)
    ensures OrderBySeq(rows) == rows
    decreases |rows|
  {
    if rows != [] {
      var n := |rows| - 1;
      var before, last := rows[..n], rows[n];
      LinkedPrefix(rows, n);
      OrderedStaysPut(before);
      assert LinkedAt(rows, n);
      assert n > 0 ==> LinkedAt(rows, n - 1) && before[n - 1] == rows[n - 1];
      InsertLast(last, before);
      assert rows == before + [last];
    }
  }

  lemma LinkedPrefix(rows: seq<Row>, n: nat)
    requires Linked(rows) && n <= |rows|
    ensures Linked(rows[..n])
  {
    forall i | 0 <= i < n
      ensures LinkedAt(rows[..n], i)
    {
      assert LinkedAt(rows, i);
    }
  }

  lemma {:induction false} FindIsMember(rows: seq<Row>, id: Value)
    ensures Find(rows, id).Some? ==> Find(rows, id).value in rows && Get(Find(rows, id).value.record, ActivityId) == id
    ensures Find(rows, id).None? <==> forall row :: row in rows ==> Get(row.record, ActivityId) != id
    decreases |rows|
  {
    if rows != [] {
      var n := |rows| - 1;
      FindIsMember(rows[..n], id);
      assert rows == rows[..n] + [rows[n]];
    }
  }

  lemma {:induction false} ChainRowsSelects(rows: seq<Row>, key: string, row: Row)
    ensures row in ChainRows(rows, key) <==> row in rows && row.chainKey == key
    decreases |rows|
  {
    if rows != [] {
      var n := |rows| - 1;
      ChainRowsSelects(rows[..n], key, row);
      assert rows == rows[..n] + [rows[n]];
    }
  }

  lemma ChainRowsAppend(rows: seq<Row>, row: Row, key: string)
    ensures ChainRows(rows + [row], key) == ChainRows(rows, key) + if row.chainKey == key then [row] else []
  {
    assert (rows + [row])[..|rows|] == rows;
  }
}
