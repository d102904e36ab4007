/** The per-project hash chain and its verifier (activity/chain.py). */
module ActivityChain {
  import opened Common

  /** An instant, and the zone offset it is written with; a naive datetime has none. */
  datatype Timestamp = Timestamp(micros: int, offset: Option<int>)

  /** What a record column may hold in the process: None, str, a JSON structure or a datetime. */
  datatype Value = Null | Text(text: string) | Native(json: Json) | Time(at: Timestamp)

  datatype Field =
    | ActivityId | InteractionId | ParentActivityId | ProjectId | DomainArea
    | TargetType | TargetId | ActionFamily | Action | LifecyclePhase | Outcome | Durability
    | EvidenceClass | EventLabel | PrimaryTarget | RelatedTargets | ActorOverride
    | ReconstructionRefs | Metadata | RetentionPolicyId | RetentionExpiresAt | OccurredAt

  type Record = map<Field, Value>

  function Get(record: Record, field: Field): Value {
    if field in record then record[field] else Null
  }

  /** Everything json.dumps puts under the digest. */
  datatype HashInput = HashInput(payload: map<Field, Json>, chainKey: string, chainSeq: int,
                                 prevRecordHash: Option<string>)

  /** The foreign functions the chain calls; each theorem names the laws it needs of them. */
  datatype Library = Library(
    loads: string -> Option<Json>,
    dumps: Json -> string,
    jsonb: string -> Option<string>, // what a jsonb column gives back for a text, if it takes it
    isoformat: Timestamp -> string,
    str: Timestamp -> string,
    digest: HashInput -> string)

  ghost predicate CollisionFree(lib: Library) {
    forall a, b :: lib.digest(a) == lib.digest(b) ==> a == b
  }

  /** A text is parsed as JSON when its first visible character opens a container, or when it has none. */
  predicate LooksLikeJson(s: string) {
    var stripped := Strip(s);
    stripped == [] || stripped[0] in ['{', '[']
  }

  function CanonicalValue(lib: Library, value: Value): Json {
    match value
    case Null => JNull
    case Native(json) => json
    case Time(at) => JStr(lib.isoformat(at))
    case Text(text) =>
      if LooksLikeJson(text) && lib.loads(text).Some? then lib.loads(text).value else JStr(text)
  }

  function CanonicalPayload(lib: Library, record: Record): map<Field, Json> {
    map field: Field :: CanonicalValue(lib, Get(record, field))
  }

  function RecordHash(lib: Library, record: Record, chainKey: string, chainSeq: int, prev: Option<string>): string {
    lib.digest(HashInput(CanonicalPayload(lib, record), chainKey, chainSeq, prev))
  }

  const GLOBAL_CHAIN_KEY := "global"

  function ChainKeyForProject(project: Option<string>): string {
    if project.Some? && project.value != "" then project.value else GLOBAL_CHAIN_KEY
  }

  function ChainKeyFor(record: Record): string {
    match Get(record, ProjectId)
    case Text(project) => ChainKeyForProject(Some(project))
    case _ => ChainKeyForProject(None)
  }

  /** One row of activity_records with its four chain columns. */
  datatype Row = Row(record: Record, chainKey: string, chainSeq: int, prevRecordHash: Option<string>,
                     recordHash: string)

  function PrevHash(rows: seq<Row>, i: nat): Option<string>
    requires i <= |rows|
  {
    if i == 0 then None else Some(rows[i - 1].recordHash)
  }

  /** Row i carries its place in the sequence and the hash of its predecessor. */
  predicate LinkedAt(rows: seq<Row>, i: nat)
    requires i < |rows|
  {
    rows[i].chainSeq == i + 1 && rows[i].prevRecordHash == PrevHash(rows, i)
  }

  /** Positions 1..n, each linked to the one before. */
  ghost predicate Linked(rows: seq<Row>) {
    forall i :: 0 <= i < |rows| ==> LinkedAt(rows, i)
  }

  /** The row carries the hash of its own content and position. */
  predicate Sealed(lib: Library, key: string, row: Row) {
    row.recordHash == RecordHash(lib, row.record, key, row.chainSeq, row.prevRecordHash)
  }

  ghost predicate Sound(lib: Library, key: string, rows: seq<Row>, i: nat)
    requires i < |rows|
  {
    LinkedAt(rows, i) && Sealed(lib, key, rows[i])
  }

  /** The declared shape of a chain: every row is sound. */
  ghost predicate Intact(lib: Library, key: string, rows: seq<Row>) {
    forall i :: 0 <= i < |rows| ==> Sound(lib, key, rows, i)
  }

  datatype Reason = SequenceGap | PrevHashMismatch | HashMismatch

  datatype Verification = Verification(
    chainKey: string, valid: bool, recordsChecked: nat, brokenAtSeq: Option<int>, reason: Option<Reason>)

  /** The first check that row i fails, in the order the checks are made; None for a good row. */
  function Defect(lib: Library, key: string, rows: seq<Row>, i: nat): Option<Reason>
    requires i < |rows|
  {
    if rows[i].chainSeq != i + 1 then Some(SequenceGap)
    else if rows[i].prevRecordHash != PrevHash(rows, i) then Some(PrevHashMismatch)
    else if rows[i].recordHash != RecordHash(lib, rows[i].record, key, i + 1, PrevHash(rows, i)) then Some(HashMismatch)
    else None
  }

  /** What a correct verification report says: the longest intact prefix, and the first defect after it. */
  ghost predicate Reports(lib: Library, key: string, rows: seq<Row>, r: Verification) {
    && r.chainKey == key
    && r.recordsChecked <= |rows|
    && Intact(lib, key, rows[..r.recordsChecked])
    && (r.valid <==> r.recordsChecked == |rows|)
    && (r.valid ==> r.brokenAtSeq == None && r.reason == None)
    && (!r.valid ==>
          && r.reason.Some?
          && r.reason == Defect(lib, key, rows, r.recordsChecked)
          && r.brokenAtSeq == Some(rows[r.recordsChecked].chainSeq))
  }

  method VerifyActivityChainRows(lib: Library, rows: seq<Row>, chainKey: string) returns (r: Verification)
    ensures Reports(lib, chainKey, rows, r)
  {
    var expectedSeq := 1;
    var prevHash: Option<string> := None;
    var i := 0;
    while i < |rows|
      invariant 0 <= i <= |rows|
      invariant expectedSeq == i + 1
      invariant prevHash == PrevHash(rows, i)
      invariant Intact(lib, chainKey, rows[..i])
    {
      var row := rows[i];
      if row.chainSeq != expectedSeq {
        return Verification(chainKey, false, expectedSeq - 1, Some(row.chainSeq), Some(SequenceGap));
      }
      if row.prevRecordHash != prevHash {
        return Verification(chainKey, false, expectedSeq - 1, Some(row.chainSeq), Some(PrevHashMismatch));
      }
      if RecordHash(lib, row.record, chainKey, row.chainSeq, prevHash) != row.recordHash {
        return Verification(chainKey, false, expectedSeq - 1, Some(row.chainSeq), Some(HashMismatch));
      }
      IntactExtends(lib, chainKey, rows, i);
      prevHash := Some(row.recordHash);
      expectedSeq := expectedSeq + 1;
      i := i + 1;
    }
    assert rows[..i] == rows;
    return Verification(chainKey, true, expectedSeq - 1, None, None);
  }

  /** Soundness of a row depends on nothing after it. */
  lemma SoundLooksBack(lib: Library, key: string, a: seq<Row>, b: seq<Row>, i: nat)
    requires i < |a| && i < |b| && a[i] == b[i]
    requires i > 0 ==> a[i - 1].recordHash == b[i - 1].recordHash
    ensures Sound(lib, key, a, i) <==> Sound(lib, key, b, i)
  {}

  lemma IntactPrefix(lib: Library, key: string, rows: seq<Row>, n: nat)
    requires n <= |rows|
    ensures Intact(lib, key, rows[..n]) <==> forall i :: 0 <= i < n ==> Sound(lib, key, rows, i)
  {
    forall i | 0 <= i < n
      ensures Sound(lib, key, rows[..n], i) <==> Sound(lib, key, rows, i)
    {
      SoundLooksBack(lib, key, rows[..n], rows, i);
    }
  }

  lemma IntactExtends(lib: Library, key: string, rows: seq<Row>, i: nat)
    requires i < |rows|
    ensures Intact(lib, key, rows[..i + 1]) <==> Intact(lib, key, rows[..i]) && Defect(lib, key, rows, i) == None
  {
    IntactPrefix(lib, key, rows, i);
    IntactPrefix(lib, key, rows, i + 1);
    assert Defect(lib, key, rows, i) == None <==> Sound(lib, key, rows, i);
  }

  // ---- The verifier is exact ----

  /** A report is valid exactly for an intact chain, and its length is that of the longest intact prefix. */
  lemma ReportIsExact(lib: Library, key: string, rows: seq<Row>, r: Verification)
    requires Reports(lib, key, rows, r)
    ensures r.valid <==> Intact(lib, key, rows)
    ensures forall n :: 0 <= n <= |rows| ==> (Intact(lib, key, rows[..n]) <==> n <= r.recordsChecked)
  {
    var c := r.recordsChecked;
    assert rows[..|rows|] == rows;
    if !r.valid {
      IntactExtends(lib, key, rows, c);
    }
    forall n | 0 <= n <= |rows|
      ensures Intact(lib, key, rows[..n]) <==> n <= c
    {
      IntactPrefix(lib, key, rows, n);
      IntactPrefix(lib, key, rows, c);
      if c < |rows| {
        IntactPrefix(lib, key, rows, c + 1);
      }
    }
  }

  /** An intact prefix followed by a defect pins the whole report down. */
  lemma ReportAt(lib: Library, key: string, rows: seq<Row>, r: Verification, c: nat)
    requires Reports(lib, key, rows, r)
    requires c < |rows| && Intact(lib, key, rows[..c]) && Defect(lib, key, rows, c).Some?
    ensures r == Verification(key, false, c, Some(rows[c].chainSeq), Defect(lib, key, rows, c))
  {
    ReportIsExact(lib, key, rows, r);
    IntactExtends(lib, key, rows, c);
    assert r.recordsChecked == c;
  }

  // ---- Where damage shows ----

  /** Deleting a row is reported as a gap at its successor; deleting the last row leaves a valid chain. */
  lemma DeletionLocalised(lib: Library, key: string, rows: seq<Row>, i: nat, r: Verification)
    requires Intact(lib, key, rows) && i < |rows|
    requires Reports(lib, key, rows[..i] + rows[i + 1..], r)
    ensures r == if i + 1 < |rows| then Verification(key, false, i, Some(i + 2), Some(SequenceGap))
                 else Verification(key, true, i, None, None)
  {
    var cut := rows[..i] + rows[i + 1..];
    assert cut[..i] == rows[..i];
    IntactPrefix(lib, key, rows, i);
    if i + 1 < |rows| {
      assert cut[i] == rows[i + 1];
      assert Sound(lib, key, rows, i + 1);
      ReportAt(lib, key, cut, r, i);
    } else {
      assert cut == rows[..i];
      ReportIsExact(lib, key, cut, r);
    }
  }

  /** Rewriting a record in place is seen at that row exactly when its canonical content changed. */
  lemma AlterationLocalised(lib: Library, key: string, rows: seq<Row>, i: nat, record: Record, r: Verification)
    requires CollisionFree(lib)
    requires Intact(lib, key, rows) && i < |rows|
    requires Reports(lib, key, rows[i := rows[i].(record := record)], r)
    ensures r == if CanonicalPayload(lib, record) != CanonicalPayload(lib, rows[i].record)
                 then Verification(key, false, i, Some(i + 1), Some(HashMismatch))
                 else Verification(key, true, |rows|, None, None)
  {
    var bad := rows[i := rows[i].(record := record)];
    assert Sound(lib, key, rows, i);
    if CanonicalPayload(lib, record) != CanonicalPayload(lib, rows[i].record) {
      assert bad[..i] == rows[..i];
      IntactPrefix(lib, key, rows, i);
      DigestSeparates(lib,
        HashInput(CanonicalPayload(lib, record), key, i + 1, PrevHash(rows, i)),
        HashInput(CanonicalPayload(lib, rows[i].record), key, i + 1, PrevHash(rows, i)));
      ReportAt(lib, key, bad, r, i);
    } else {
      forall j | 0 <= j < |bad|
        ensures Sound(lib, key, bad, j)
      {
        assert Sound(lib, key, rows, j);
        assert PrevHash(bad, j) == PrevHash(rows, j);
        if j != i {
          SoundLooksBack(lib, key, rows, bad, j);
        }
      }
      ReportIsExact(lib, key, bad, r);
    }
  }

  lemma DigestSeparates(lib: Library, a: HashInput, b: HashInput)
    requires CollisionFree(lib)
    ensures lib.digest(a) == lib.digest(b) <==> a == b
  {}

  /** Exchanging two rows is a gap at the earlier place, naming the later number. */
  lemma SwapLocalised(lib: Library, key: string, rows: seq<Row>, i: nat, j: nat, r: Verification)
    requires Intact(lib, key, rows) && i < j < |rows|
    requires Reports(lib, key, rows[i := rows[j]][j := rows[i]], r)
    ensures r == Verification(key, false, i, Some(j + 1), Some(SequenceGap))
  {
    var swapped := rows[i := rows[j]][j := rows[i]];
    assert swapped[..i] == rows[..i];
    IntactPrefix(lib, key, rows, i);
    assert Sound(lib, key, rows, j);
    ReportAt(lib, key, swapped, r, i);
  }

  // ---- The head determines the history ----

  /** Two chains that verify under one key and end in the same hash agree on every row. */
  lemma {:induction false} HeadDeterminesHistory(lib: Library, key: string, a: seq<Row>, b: seq<Row>)
    requires CollisionFree(lib)
    requires Intact(lib, key, a) && Intact(lib, key, b) && a != [] && b != []
    requires a[|a| - 1].recordHash == b[|b| - 1].recordHash
    ensures |a| == |b|
    ensures forall i :: 0 <= i < |a| ==> SameSealedRow(lib, a[i], b[i])
    decreases |a|
  {
    var m, n := |a| - 1, |b| - 1;
    assert Sound(lib, key, a, m) && Sound(lib, key, b, n);
    DigestSeparates(lib,
      HashInput(CanonicalPayload(lib, a[m].record), key, m + 1, PrevHash(a, m)),
      HashInput(CanonicalPayload(lib, b[n].record), key, n + 1, PrevHash(b, n)));
    if m > 0 {
      IntactPrefix(lib, key, a, m);
      IntactPrefix(lib, key, b, n);
      HeadDeterminesHistory(lib, key, a[..m], b[..n]);
      forall i | 0 <= i < |a|
        ensures SameSealedRow(lib, a[i], b[i])
      {
        if i < m {
          assert a[..m][i] == a[i] && b[..m][i] == b[i];
        }
      }
    }
  }

  /** Equal canonical content and equal chain columns: all that verification reads of a row. */
  ghost predicate SameSealedRow(lib: Library, a: Row, b: Row) {
    && CanonicalPayload(lib, a.record) == CanonicalPayload(lib, b.record)
    && a.chainSeq == b.chainSeq
    && a.prevRecordHash == b.prevRecordHash
    && a.recordHash == b.recordHash
  }

  /** Links and seals are independent: together they are all that verification asks. */
  lemma IntactSplits(lib: Library, key: string, rows: seq<Row>)
    ensures Intact(lib, key, rows) <==> Linked(rows) && forall row :: row in rows ==> Sealed(lib, key, row)
  {
    if Linked(rows) && forall row :: row in rows ==> Sealed(lib, key, row) {
      forall i | 0 <= i < |rows|
        ensures Sound(lib, key, rows, i)
      {
        assert rows[i] in rows;
      }
    }
    if Intact(lib, key, rows) {
      forall row | row in rows
        ensures Sealed(lib, key, row)
      {
        var i :| 0 <= i < |rows| && rows[i] == row;
        assert Sound(lib, key, rows, i);
      }
      forall i | 0 <= i < |rows|
        ensures LinkedAt(rows, i)
      {
        assert Sound(lib, key, rows, i);
      }
    }
  }

  /** Selecting rows of a linked chain keeps it linked exactly when the selection is a prefix of it. */
  lemma SubsetLinkedIffPrefix(chain: seq<Row>, picked: seq<Row>)
    requires Linked(chain)
    requires forall row :: row in picked ==> row in chain
    ensures Linked(picked) <==> picked <= chain
  {
    if Linked(picked) {
      forall i | 0 <= i < |picked|
        ensures i < |chain| && picked[i] == chain[i]
      {
        assert picked[i] in picked;
        var j :| 0 <= j < |chain| && chain[j] == picked[i];
        assert LinkedAt(chain, j) && LinkedAt(picked, i);
      }
      if picked != [] {
        var last := |picked| - 1;
        assert last < |chain| && picked[last] == chain[last];
      }
    }
    if picked <= chain {
      forall i | 0 <= i < |picked|
        ensures LinkedAt(picked, i)
      {
        assert LinkedAt(chain, i);
      }
    }
  }

  /** A selection verifies exactly when it is a prefix of the chain and each of its rows is sealed. */
  lemma SubsetIntactIffPrefix(lib: Library, key: string, chain: seq<Row>, picked: seq<Row>)
    requires Linked(chain)
    requires forall row :: row in picked ==> row in chain
    ensures Intact(lib, key, picked) <==> picked <= chain && forall row :: row in picked ==> Sealed(lib, key, row)
  {
    SubsetLinkedIffPrefix(chain, picked);
    IntactSplits(lib, key, picked);
  }
}
