/** Signed compliance exports: build, serialise, verify (activity/export.py). */
module ComplianceExport {
  import opened Common
  import opened Hex
  import opened ActivityChain
  import opened ActivityStorage
  import opened ActivityLog
  import opened ActivityLogSafety
  import opened ActivityLogSeals

  /** The export as its JSON document; `signatureHex` is the one entry that is not signed. */
  datatype ExportDoc = ExportDoc(
    projectId: Option<string>, chainKey: string, generatedAt: string,
    since: Option<string>, until: Option<string>,
    records: seq<Row>, chainVerification: Verification,
    exportedRecordCount: nat, deadLetteredCount: nat,
    signingKeyFingerprint: string, publicKeyHex: string, signatureHex: string)

  /** One row as JSON shows it. */
  datatype RowShown = RowShown(
    columns: map<Field, Json>, chainKey: string, chainSeq: int, prevRecordHash: Option<string>, recordHash: string)

  /** What is signed: everything but the signature, with each row as JSON shows it. */
  datatype Document = Document(header: ExportDoc, rows: seq<RowShown>)

  type Unsigned = d: Document | d.header.records == [] && d.header.signatureHex == ""
    witness Document(
      ExportDoc(None, "", "", None, None, [], Verification("", true, 0, None, None), 0, 0, "", "", ""), [])

  /** JSON encoding of a document, and the Ed25519 operations on raw keys and signatures. */
  datatype Signing = Signing(
    encode: Unsigned -> string,
    sign: (string, string) -> seq<Byte>,
    publicKey: string -> seq<Byte>,
    fingerprint: string -> string,
    isKey: seq<Byte> -> bool,
    check: (seq<Byte>, string, seq<Byte>) -> bool)

  /** An ideal signature: a check passes exactly for what the matching private key signed, and names it. */
  ghost predicate Ideal(signing: Signing) {
    && (forall sk, m ::
      signing.sign(sk, m) != [] && signing.publicKey(sk) != [] && signing.isKey(signing.publicKey(sk)))
    && (forall sk, m :: signing.check(signing.publicKey(sk), m, signing.sign(sk, m)))
    && (forall sk, m, pk, n :: signing.check(pk, n, signing.sign(sk, m)) ==> pk == signing.publicKey(sk) && n == m)
  }

  ghost predicate LosslessEncoding(signing: Signing) {
    forall a: Unsigned, b: Unsigned :: signing.encode(a) == signing.encode(b) ==> a == b
  }

  /** json.dumps with default=str: a text column and a JSON text look alike. */
  function Shown(lib: Library, value: Value): Json {
    match value
    case Null => JNull
    case Text(text) => JStr(text)
    case Native(json) => json
    case Time(at) => JStr(lib.str(at))
  }

  function RowAsShown(lib: Library, row: Row): RowShown {
    RowShown(map field | field in row.record :: Shown(lib, row.record[field]),
      row.chainKey, row.chainSeq, row.prevRecordHash, row.recordHash)
  }

  function Rendered(lib: Library, doc: ExportDoc): Unsigned {
    Document(doc.(records := [], signatureHex := ""),
      seq(|doc.records|, i requires 0 <= i < |doc.records| => RowAsShown(lib, doc.records[i])))
  }

  function Signable(lib: Library, signing: Signing, doc: ExportDoc): string {
    signing.encode(Rendered(lib, doc))
  }

  /** _json_safe_record: datetimes become ISO text, so that a JSON file carries the document unchanged. */
  function JsonSafe(lib: Library, value: Value): Value {
    match value
    case Time(at) => Text(lib.isoformat(at))
    case _ => value
  }

  function JsonSafeRow(lib: Library, row: Row): Row {
    row.(record := map field | field in row.record :: JsonSafe(lib, row.record[field]))
  }

  function JsonSafeRows(lib: Library, rows: seq<Row>): seq<Row> {
    seq(|rows|, i requires 0 <= i < |rows| => JsonSafeRow(lib, rows[i]))
  }

  predicate InWindow(row: Row, since: Option<Timestamp>, until: Option<Timestamp>) {
    match Get(row.record, OccurredAt)
    case Time(at) =>
      (since.Some? ==> at.micros >= since.value.micros) && (until.Some? ==> at.micros <= until.value.micros)
    case _ => since.None? && until.None?
  }

  function Filtered(rows: seq<Row>, since: Option<Timestamp>, until: Option<Timestamp>): seq<Row> {
    if rows == [] then []
    else
      var last := rows[|rows| - 1];
      Filtered(rows[..|rows| - 1], since, until) + if InWindow(last, since, until) then [last] else []
  }

  function FetchForExport(rows: seq<Row>, key: string, since: Option<Timestamp>, until: Option<Timestamp>): seq<Row> {
    Filtered(FetchChain(rows, key), since, until)
  }

  function IsoOf(lib: Library, at: Option<Timestamp>): Option<string> {
    match at
    case Some(t) => Some(lib.isoformat(t))
    case None => None
  }

  /** build_signed_compliance_export followed by to_dict: sign everything but the signature. */
  function Build(lib: Library, signing: Signing, privateKey: string, rows: seq<Row>, project: Option<string>,
                 since: Option<Timestamp>, until: Option<Timestamp>, generatedAt: string,
                 verification: Verification, deadLettered: nat): ExportDoc
  {
    var key := ChainKeyForProject(project);
    var records := FetchForExport(rows, key, since, until);
    var doc := ExportDoc(project, key, generatedAt, IsoOf(lib, since), IsoOf(lib, until),
      JsonSafeRows(lib, records), verification, |records|, deadLettered,
      signing.fingerprint(privateKey), ToHex(signing.publicKey(privateKey)), "");
    doc.(signatureHex := ToHex(signing.sign(privateKey, Signable(lib, signing, doc))))
  }

  datatype Report = Report(
    signatureValid: bool, chainValid: bool, chainReason: Option<Reason>, usedEmbeddedPublicKey: bool, overallPass: bool)

  /** A trusted key that is absent or empty yields to the one in the document. */
  function SelectedKey(doc: ExportDoc, trusted: Option<string>): string {
    if trusted.Some? && trusted.value != "" then trusted.value else doc.publicKeyHex
  }

  /** The key and the signature are both hex of something, the key is one, and the check passes. */
  predicate SignatureChecks(signing: Signing, keyHex: string, message: string, signatureHex: string) {
    var key, signature := FromHex(keyHex), FromHex(signatureHex);
    && keyHex != "" && signatureHex != ""
    && key.Some? && signing.isKey(key.value)
    && signature.Some? && signing.check(key.value, message, signature.value)
  }

  /** What verification must report of a document. */
  ghost predicate ReportOf(lib: Library, signing: Signing, doc: ExportDoc, trusted: Option<string>, report: Report) {
    && (report.signatureValid <==>
          SignatureChecks(signing, SelectedKey(doc, trusted), Signable(lib, signing, doc), doc.signatureHex))
    && (report.chainValid <==> Intact(lib, doc.chainKey, doc.records))
    && (report.chainReason.None? <==> report.chainValid)
    && (!report.chainValid ==> exists n: nat ::
          n < |doc.records| && Intact(lib, doc.chainKey, doc.records[..n])
          && report.chainReason == Defect(lib, doc.chainKey, doc.records, n))
    && (report.usedEmbeddedPublicKey <==> trusted.None?)
    && (report.overallPass <==> report.signatureValid && report.chainValid && !report.usedEmbeddedPublicKey)
  }

  /** verify_payload_signature, behind public_key_from_hex; every ValueError means an invalid signature. */
  method CheckSignature(signing: Signing, keyHex: string, message: string, signatureHex: string) returns (valid: bool)
    ensures valid == SignatureChecks(signing, keyHex, message, signatureHex)
  {
    if keyHex == "" || signatureHex == "" {
      return false;
    }
    var key := FromHex(keyHex);
    if key.None? || !signing.isKey(key.value) {
      return false;
    }
    var signature := FromHex(signatureHex);
    if signature.None? {
      return false;
    }
    valid := signing.check(key.value, message, signature.value);
  }

  method VerifySignedComplianceExport(lib: Library, signing: Signing, doc: ExportDoc, trusted: Option<string>)
    returns (report: Report)
    ensures ReportOf(lib, signing, doc, trusted, report)
  {
    var key := SelectedKey(doc, trusted);
    var signatureValid := CheckSignature(signing, key, Signable(lib, signing, doc), doc.signatureHex);
    var recomputed := VerifyActivityChainRows(lib, doc.records, doc.chainKey);
    ReportIsExact(lib, doc.chainKey, doc.records, recomputed);
    return Report(signatureValid, recomputed.valid, recomputed.reason, trusted.None?,
      signatureValid && recomputed.valid && trusted.Some?);
  }

  /**
    A key that is given is the one the signature is checked with; an empty one is as good as none, but passes for a
    trusted one.
   */
  lemma TrustedKeyDecides(lib: Library, signing: Signing, doc: ExportDoc, trusted: string, report: Report)
    requires ReportOf(lib, signing, doc, Some(trusted), report)
    ensures report.signatureValid <==>
      SignatureChecks(signing, if trusted == "" then doc.publicKeyHex else trusted, Signable(lib, signing, doc),
                      doc.signatureHex)
    ensures !report.usedEmbeddedPublicKey && (report.overallPass <==> report.signatureValid && report.chainValid)
  {}

  /** Without a key the signature is checked with the document's own, and nothing passes. */
  lemma EmbeddedKeyNeverPasses(lib: Library, signing: Signing, doc: ExportDoc, report: Report)
    requires ReportOf(lib, signing, doc, None, report)
    ensures report.signatureValid <==>
      SignatureChecks(signing, doc.publicKeyHex, Signable(lib, signing, doc), doc.signatureHex)
    ensures report.usedEmbeddedPublicKey && !report.overallPass
  {}

  // ---- Hashes survive the export ----

  lemma JsonSafeKeepsHash(lib: Library, row: Row, key: string, chainSeq: int, prev: Option<string>)
    requires FaithfulIso(lib)
    ensures RecordHash(lib, JsonSafeRow(lib, row).record, key, chainSeq, prev)
      == RecordHash(lib, row.record, key, chainSeq, prev)
  {
    var safe := JsonSafeRow(lib, row).record;
    forall field: Field
      ensures CanonicalPayload(lib, safe)[field] == CanonicalPayload(lib, row.record)[field]
    {
      assert Get(safe, field) == JsonSafe(lib, Get(row.record, field));
    }
    assert CanonicalPayload(lib, safe) == CanonicalPayload(lib, row.record);
  }

  /**
    The whole trip: the export changes no hash, so the native record, the stored row and the exported row hash
    alike exactly when the record survives storage.
   */
  lemma HashStableThroughExport(lib: Library, row: Row, key: string, chainSeq: int, prev: Option<string>)
    requires Assumed(lib) && CollisionFree(lib) && RecorderShape(row.record) && Storable(row.record)
    ensures RecordHash(lib, JsonSafeRow(lib, StoredRow(lib, row)).record, key, chainSeq, prev)
         == RecordHash(lib, StoredRecord(lib, row.record), key, chainSeq, prev)
    ensures RecordHash(lib, JsonSafeRow(lib, StoredRow(lib, row)).record, key, chainSeq, prev)
         == RecordHash(lib, row.record, key, chainSeq, prev)
      <==> Survives(row.record)
  {
    HashStableIff(lib, row.record, key, chainSeq, prev);
    JsonSafeKeepsHash(lib, StoredRow(lib, row), key, chainSeq, prev);
  }

  lemma ExportKeepsIntact(lib: Library, key: string, rows: seq<Row>)
    requires FaithfulIso(lib)
    ensures Intact(lib, key, JsonSafeRows(lib, rows)) <==> Intact(lib, key, rows)
  {
    var safe := JsonSafeRows(lib, rows);
    forall i | 0 <= i < |rows|
      ensures Sound(lib, key, safe, i) <==> Sound(lib, key, rows, i)
    {
      JsonSafeKeepsHash(lib, rows[i], key, i + 1, PrevHash(rows, i));
    }
  }

  lemma {:induction false} FilteredSelects(rows: seq<Row>, since: Option<Timestamp>, until: Option<Timestamp>)
    ensures forall row :: row in Filtered(rows, since, until) ==> row in rows
    ensures since.None? && until.None? ==> Filtered(rows, since, until) == rows
    decreases |rows|
  {
    if rows != [] {
      FilteredSelects(rows[..|rows| - 1], since, until);
      assert rows == rows[..|rows| - 1] + [rows[|rows| - 1]];
    }
  }

  // ---- What an export holds ----

  /** The instant lies within the bounds that are given, both included; a row without one is in no bounded window. */
  predicate Between(row: Row, since: Option<Timestamp>, until: Option<Timestamp>) {
    match Get(row.record, OccurredAt)
    case Time(at) => (since.None? || since.value.micros <= at.micros)
      && (until.None? || at.micros <= until.value.micros)
    case _ => since.None? && until.None?
  }

  lemma {:induction false} FilteredCount(rows: seq<Row>, since: Option<Timestamp>, until: Option<Timestamp>, row: Row)
    ensures multiset(Filtered(rows, since, until))[row]
      == if InWindow(row, since, until) then multiset(rows)[row] else 0
    decreases |rows|
  {
    if rows != [] {
      var n := |rows| - 1;
      assert rows == rows[..n] + [rows[n]];
      FilteredCount(rows[..n], since, until, row);
    }
  }

  lemma InWindowMeans(row: Row, since: Option<Timestamp>, until: Option<Timestamp>)
    ensures InWindow(row, since, until) <==> Between(row, since, until)
  {}

  lemma {:induction false} FilteredInSequence(rows: seq<Row>, since: Option<Timestamp>, until: Option<Timestamp>)
    requires InSequence(rows)
    ensures InSequence(Filtered(rows, since, until))
    decreases |rows|
  {
    if rows != [] {
      var n := |rows| - 1;
      FilteredInSequence(rows[..n], since, until);
      FilteredSelects(rows[..n], since, until);
      BelowLast(rows, Filtered(rows[..n], since, until));
    }
  }

  lemma BelowLast(rows: seq<Row>, kept: seq<Row>)
    requires InSequence(rows) && rows != [] && forall row :: row in kept ==> row in rows[..|rows| - 1]
    ensures forall i :: 0 <= i < |kept| ==> kept[i].chainSeq <= rows[|rows| - 1].chainSeq
  {
    forall i | 0 <= i < |kept|
      ensures kept[i].chainSeq <= rows[|rows| - 1].chainSeq
    {
      assert kept[i] in kept;
      var j :| 0 <= j < |rows| - 1 && rows[j] == kept[i];
    }
  }

  /** A window selects the key's rows whose instants lie within it, each once for each time it is stored, in order. */
  lemma WindowSelects(rows: seq<Row>, key: string, since: Option<Timestamp>, until: Option<Timestamp>, row: Row)
    ensures multiset(FetchForExport(rows, key, since, until))[row]
      == if row.chainKey == key && Between(row, since, until) then multiset(rows)[row] else 0
    ensures InSequence(FetchForExport(rows, key, since, until))
  {
    FetchReturns(rows, key, row);
    FilteredCount(FetchChain(rows, key), since, until, row);
    InWindowMeans(row, since, until);
    FilteredInSequence(FetchChain(rows, key), since, until);
  }

  /** What the built document says of itself. */
  lemma BuiltDocument(lib: Library, signing: Signing, privateKey: string, rows: seq<Row>, project: Option<string>,
                      since: Option<Timestamp>, until: Option<Timestamp>, generatedAt: string,
                      verification: Verification, deadLettered: nat)
    ensures var doc :=
      Build(lib, signing, privateKey, rows, project, since, until, generatedAt, verification, deadLettered);
      var key := if project.Some? && project.value != "" then project.value else "global";
      var picked := FetchForExport(rows, key, since, until);
      && doc.projectId == project && doc.chainKey == key && doc.generatedAt == generatedAt
      && doc.since == (if since.Some? then Some(lib.isoformat(since.value)) else None)
      && doc.until == (if until.Some? then Some(lib.isoformat(until.value)) else None)
      && |doc.records| == |picked| == doc.exportedRecordCount && doc.deadLetteredCount == deadLettered
      && doc.chainVerification == verification
      && doc.signingKeyFingerprint == signing.fingerprint(privateKey)
      && doc.publicKeyHex == ToHex(signing.publicKey(privateKey))
      && doc.signatureHex == ToHex(signing.sign(privateKey, Signable(lib, signing, doc)))
      && forall i :: 0 <= i < |picked| ==> doc.records[i] == JsonSafeRow(lib, picked[i])
  {}

  /** An exported row is the stored row, with every instant as ISO text. */
  lemma ExportedColumn(lib: Library, row: Row, field: Field)
    ensures Get(JsonSafeRow(lib, row).record, field)
      == (match Get(row.record, field) case Time(at) => Text(lib.isoformat(at)) case value => value)
    ensures JsonSafeRow(lib, row) == row.(record := JsonSafeRow(lib, row).record)
  {}

  // ---- Main results ----

  /** The signature of a built document checks under the signer's own key and no other, however that is spelled. */
  lemma BuiltSignatureChecks(lib: Library, signing: Signing, privateKey: string, doc: ExportDoc, trusted: string)
    requires Ideal(signing) && trusted != ""
    requires doc.signatureHex == ToHex(signing.sign(privateKey, Signable(lib, signing, doc)))
    ensures SignatureChecks(signing, trusted, Signable(lib, signing, doc), doc.signatureHex)
      <==> FromHex(trusted) == Some(signing.publicKey(privateKey))
  {
    HexRoundTrip(signing.sign(privateKey, Signable(lib, signing, doc)));
  }

  /**
    Build, serialise, verify: with a non-empty trusted key the export passes exactly when that key decodes to
    the signer's, the selected window is a prefix of the chain, and every selected row came from a record whose
    hash is stable.
   */
  lemma ExportPassesIff(lib: Library, signing: Signing, privateKey: string, pool: set<Record>, rows: seq<Row>,
                        project: Option<string>, since: Option<Timestamp>, until: Option<Timestamp>,
                        generatedAt: string, verification: Verification, deadLettered: nat, trusted: string,
                        report: Report)
    requires Assumed(lib) && CollisionFree(lib) && Ideal(signing) && TableOk(rows) && trusted != ""
    requires forall row :: row in rows ==> Genuine(lib, pool, row)
    requires ReportOf(lib, signing,
      Build(lib, signing, privateKey, rows, project, since, until, generatedAt, verification, deadLettered),
      Some(trusted), report)
    ensures var picked := FetchForExport(rows, ChainKeyForProject(project), since, until);
      report.overallPass <==>
        && FromHex(trusted) == Some(signing.publicKey(privateKey))
        && picked <= FetchChain(rows, ChainKeyForProject(project))
        && forall row :: row in picked ==> FromSurvivor(lib, pool, row)
  {
    var key := ChainKeyForProject(project);
    var doc := Build(lib, signing, privateKey, rows, project, since, until, generatedAt, verification, deadLettered);
    var picked := FetchForExport(rows, key, since, until);
    assert doc.(signatureHex := "").(signatureHex := "") == doc.(signatureHex := "");
    BuiltSignatureChecks(lib, signing, privateKey, doc, trusted);
    ExportKeepsIntact(lib, key, picked);
    SelectionIntactIff(lib, pool, rows, key, since, until);
  }

  lemma SelectionIntactIff(lib: Library, pool: set<Record>, rows: seq<Row>, key: string,
                           since: Option<Timestamp>, until: Option<Timestamp>)
    requires Assumed(lib) && CollisionFree(lib) && TableOk(rows)
    requires forall row :: row in rows ==> Genuine(lib, pool, row)
    ensures var picked := FetchForExport(rows, key, since, until);
      Intact(lib, key, picked) <==>
        picked <= FetchChain(rows, key) && forall row :: row in picked ==> FromSurvivor(lib, pool, row)
  {
    var chain, picked := FetchChain(rows, key), FetchForExport(rows, key, since, until);
    OrderedStaysPut(ChainRows(rows, key));
    FilteredSelects(chain, since, until);
    SubsetIntactIffPrefix(lib, key, chain, picked);
    forall row | row in picked
      ensures Sealed(lib, key, row) <==> FromSurvivor(lib, pool, row)
    {
      ChainRowsSelects(rows, key, row);
      SealedIff(lib, pool, row);
    }
  }

  /**
    An export without a window, of any log that any run can produce, passes exactly when that chain came from
    survivors.
   */
  lemma UnwindowedExportPasses(lib: Library, signing: Signing, privateKey: string, pool: set<Record>, trigger: bool,
                               s: State, events: seq<Event>, project: Option<string>, generatedAt: string,
                               verification: Verification, deadLettered: nat, trusted: string, report: Report)
    requires Assumed(lib) && CollisionFree(lib) && Ideal(signing) && Initial(s) && Sourced(lib, pool, s)
    requires FromHex(trusted) == Some(signing.publicKey(privateKey))
    requires ReportOf(lib, signing,
      Build(lib, signing, privateKey, Run(lib, trigger, s, events).db.rows, project, None, None, generatedAt,
        verification, deadLettered),
      Some(trusted), report)
    ensures report.overallPass <==>
      forall row :: row in Run(lib, trigger, s, events).db.rows && row.chainKey == ChainKeyForProject(project)
        ==> FromSurvivor(lib, pool, row)
  {
    RunKeeps(lib, trigger, s, events);
    RunSourced(lib, trigger, pool, s, events);
    var rows, key := Run(lib, trigger, s, events).db.rows, ChainKeyForProject(project);
    assert trusted != "" by {
      HexRoundTrip([]);
    }
    ExportPassesIff(lib, signing, privateKey, pool, rows, project, None, None, generatedAt, verification, deadLettered,
      trusted, report);
    FilteredSelects(FetchChain(rows, key), None, None);
    OrderedStaysPut(ChainRows(rows, key));
    forall row
      ensures row in FetchChain(rows, key) <==> row in rows && row.chainKey == key
    {
      ChainRowsSelects(rows, key, row);
    }
  }

  /** With the signature of another a document passes only if it reads like that one, entry by entry. */
  lemma SignatureBindsDocument(lib: Library, signing: Signing, privateKey: string, signed: ExportDoc,
                               received: ExportDoc, trusted: string, report: Report)
    requires Ideal(signing) && LosslessEncoding(signing)
    requires signed.signatureHex == ToHex(signing.sign(privateKey, Signable(lib, signing, signed)))
    requires FromHex(received.signatureHex) == FromHex(signed.signatureHex) && trusted != ""
    requires ReportOf(lib, signing, received, Some(trusted), report)
    ensures report.signatureValid <==>
      && Rendered(lib, received) == Rendered(lib, signed)
      && FromHex(trusted) == Some(signing.publicKey(privateKey))
  {
    HexRoundTrip(signing.sign(privateKey, Signable(lib, signing, signed)));
    assert FromHex("") == Some([]);
  }

  /** Two values that JSON shows differently, told from the values; one way round. */
  predicate ShownApart(lib: Library, a: Value, b: Value) {
    match (a, b)
    case (Null, Text(_)) => true
    case (Null, Native(json)) => json != JNull
    case (Null, Time(_)) => true
    case (Text(s), Text(t)) => s != t
    case (Text(s), Native(json)) => json != JStr(s)
    case (Text(s), Time(at)) => s != lib.str(at)
    case (Native(j), Native(k)) => j != k
    case _ => false
  }

  /** Documents that read alike agree on every entry but the signature, and on every column of every row. */
  lemma RenderedBinds(lib: Library, a: ExportDoc, b: ExportDoc)
    requires Rendered(lib, a) == Rendered(lib, b)
    ensures a.projectId == b.projectId && a.chainKey == b.chainKey && a.generatedAt == b.generatedAt
    ensures a.since == b.since && a.until == b.until && a.chainVerification == b.chainVerification
    ensures a.exportedRecordCount == b.exportedRecordCount && a.deadLetteredCount == b.deadLetteredCount
    ensures a.signingKeyFingerprint == b.signingKeyFingerprint && a.publicKeyHex == b.publicKeyHex
    ensures |a.records| == |b.records|
    ensures forall i :: 0 <= i < |a.records| ==>
      && a.records[i].chainKey == b.records[i].chainKey && a.records[i].chainSeq == b.records[i].chainSeq
      && a.records[i].prevRecordHash == b.records[i].prevRecordHash
        && a.records[i].recordHash == b.records[i].recordHash
      && forall field: Field ::
           && !ShownApart(lib, Get(a.records[i].record, field), Get(b.records[i].record, field))
           && !ShownApart(lib, Get(b.records[i].record, field), Get(a.records[i].record, field))
  {
    var x, y := Rendered(lib, a), Rendered(lib, b);
    assert x.header == y.header && x.rows == y.rows;
    forall i | 0 <= i < |a.records|
      ensures RowAsShown(lib, a.records[i]) == RowAsShown(lib, b.records[i])
    {
      assert x.rows[i] == RowAsShown(lib, a.records[i]) && y.rows[i] == RowAsShown(lib, b.records[i]);
    }
    forall i, field: Field | 0 <= i < |a.records|
      ensures !ShownApart(lib, Get(a.records[i].record, field), Get(b.records[i].record, field))
      ensures !ShownApart(lib, Get(b.records[i].record, field), Get(a.records[i].record, field))
    {
      ColumnShown(lib, a.records[i], b.records[i], field);
    }
  }

  lemma ColumnShown(lib: Library, a: Row, b: Row, field: Field)
    requires RowAsShown(lib, a) == RowAsShown(lib, b)
    ensures !ShownApart(lib, Get(a.record, field), Get(b.record, field))
    ensures !ShownApart(lib, Get(b.record, field), Get(a.record, field))
  {
    var x, y := RowAsShown(lib, a).columns, RowAsShown(lib, b).columns;
    assert x.Keys == a.record.Keys && y.Keys == b.record.Keys;
    if field in a.record {
      assert x[field] == Shown(lib, a.record[field]) && y[field] == Shown(lib, b.record[field]);
    }
  }
}
