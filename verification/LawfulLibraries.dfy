/** The laws that the theorems name can be met, all of them at once: one library for each. */
module LawfulLibraries {
  import opened Common
  import opened Injections
  import opened JsonbValues
  import opened ActivityChain
  import opened ActivityStorage
  import opened DbContract
  import InternalTokens
  import Tokens = DelegatedTokens
  import Export = ComplianceExport

  // ---- JSON and jsonb ----

  ghost function Dump(j: Json): string {
    (if Container(j) then "[" else "v") + Flat(JsonTerm(j))
  }

  lemma DumpInjective(a: Json, b: Json)
    requires Dump(a) == Dump(b)
    ensures a == b
  {
    assert Dump(a)[1..] == Flat(JsonTerm(a)) && Dump(b)[1..] == Flat(JsonTerm(b));
    FlatInjective(JsonTerm(a), JsonTerm(b));
    JsonInjective(a, b);
  }

  ghost function Load(text: string): Option<Json> {
    if exists j: Json :: Dump(j) == text then (var j: Json :| Dump(j) == text; Some(j)) else None
  }

  lemma LoadDump(j: Json)
    ensures Load(Dump(j)) == Some(j)
  {
    var text := Dump(j);
    assert Dump(j) == text;
    DumpInjective(Load(text).value, j);
  }

  ghost function Column(text: string): Option<string> {
    match Load(text)
    case Some(j) => if JsonStorable(j) then Some(Dump(Renumbered(j))) else None
    case None => None
  }

  lemma HeadDecides(s: string)
    requires s != [] && !IsSpace(s[0])
    ensures LooksLikeJson(s) <==> s[0] in ['{', '[']
  {
    StripRightKeepsHead(s);
  }

  // ---- Times and digests ----

  function TimeTerm(t: Timestamp): Term {
    Node(IntTerm(t.micros), if t.offset.Some? then Node(Leaf(1), IntTerm(t.offset.value)) else Leaf(0))
  }

  function Iso(t: Timestamp): string {
    "t" + Flat(TimeTerm(t))
  }

  lemma IsoInjective(t: Timestamp, u: Timestamp)
    requires Iso(t) == Iso(u)
    ensures t == u
  {
    assert Iso(t)[1..] == Flat(TimeTerm(t)) && Iso(u)[1..] == Flat(TimeTerm(u));
    FlatInjective(TimeTerm(t), TimeTerm(u));
  }

  function FieldTerm(field: Field): Term {
    Leaf(
      match field
      case ActivityId => 0 case InteractionId => 1 case ParentActivityId => 2 case ProjectId => 3
      case DomainArea => 4 case TargetType => 5 case TargetId => 6 case ActionFamily => 7
      case Action => 8 case LifecyclePhase => 9 case Outcome => 10 case Durability => 11
      case EvidenceClass => 12 case EventLabel => 13 case PrimaryTarget => 14 case RelatedTargets => 15
      case ActorOverride => 16 case ReconstructionRefs => 17 case Metadata => 18
      case RetentionPolicyId => 19 case RetentionExpiresAt => 20 case OccurredAt => 21)
  }

  ghost function ColumnsTerm(payload: map<Field, Json>): Term {
    MapTerm(FieldTerm, map field | field in payload :: JsonTerm(payload[field]))
  }

  lemma ColumnsInjective(a: map<Field, Json>, b: map<Field, Json>)
    requires ColumnsTerm(a) == ColumnsTerm(b)
    ensures a == b
  {
    var x, y := map field | field in a :: JsonTerm(a[field]), map field | field in b :: JsonTerm(b[field]);
    MapInjective(FieldTerm, x, y);
    assert a.Keys == x.Keys && b.Keys == y.Keys;
    forall field | field in a
      ensures a[field] == b[field]
    {
      assert x[field] == y[field];
      JsonInjective(a[field], b[field]);
    }
  }

  ghost function Digest(input: HashInput): string {
    Flat(Node(Node(ColumnsTerm(input.payload), TextTerm(input.chainKey)),
              Node(IntTerm(input.chainSeq), OptionTerm(input.prevRecordHash))))
  }

  lemma DigestInjective(a: HashInput, b: HashInput)
    requires Digest(a) == Digest(b)
    ensures a == b
  {
    FlatInjective(
      Node(Node(ColumnsTerm(a.payload), TextTerm(a.chainKey)), Node(IntTerm(a.chainSeq), OptionTerm(a.prevRecordHash))),
      Node(Node(ColumnsTerm(b.payload), TextTerm(b.chainKey)),
        Node(IntTerm(b.chainSeq), OptionTerm(b.prevRecordHash))));
    ColumnsInjective(a.payload, b.payload);
    TextInjective(a.chainKey, b.chainKey);
    OptionInjective(a.prevRecordHash, b.prevRecordHash);
  }

  /** What the log and its storage assume has a model. */
  lemma ChainLawsMet() returns (lib: Library)
    ensures Assumed(lib) && CollisionFree(lib)
  {
    lib := Library(Load, Dump, Column, Iso, Iso, Digest);
    forall j
      ensures JsonStorable(j) <==> lib.jsonb(lib.dumps(j)).Some?
      ensures JsonStorable(j) ==> lib.loads(lib.jsonb(lib.dumps(j)).value) == Some(Renumbered(j))
      ensures JsonStorable(j) && Container(j) ==> LooksLikeJson(lib.jsonb(lib.dumps(j)).value)
    {
      LoadDump(j);
      LoadDump(Renumbered(j));
      HeadDecides(Dump(Renumbered(j)));
    }
    forall t
      ensures !LooksLikeJson(lib.isoformat(t))
    {
      HeadDecides(Iso(t));
    }
    forall t: Timestamp, u: Timestamp | lib.isoformat(t) == lib.isoformat(u)
      ensures t == u
    {
      IsoInjective(t, u);
    }
    forall a, b | lib.digest(a) == lib.digest(b)
      ensures a == b
    {
      DigestInjective(a, b);
    }
  }

  // ---- Tokens ----

  /** The text as bytes. */
  function Bytes(s: string): seq<Byte> {
    seq(|s|, i requires 0 <= i < |s| => s[i] as int % 256)
  }

  function FlatBytes(t: Term): seq<Byte> {
    Bytes(Flat(t))
  }

  predicate Plain(s: string) {
    forall i :: 0 <= i < |s| ==> s[i] as int < 256
  }

  lemma {:induction false} UnaryPlain(n: nat)
    ensures Plain(Unary(n))
  {
    if n > 0 {
      UnaryPlain(n - 1);
    }
  }

  lemma {:induction false} FlatPlain(t: Term)
    ensures Plain(Flat(t))
  {
    match t
    case Leaf(n) => UnaryPlain(n);
    case Node(left, right) =>
      FlatPlain(left);
      FlatPlain(right);
  }

  lemma FlatBytesInjective(a: Term, b: Term)
    requires FlatBytes(a) == FlatBytes(b)
    ensures a == b
  {
    FlatPlain(a);
    FlatPlain(b);
    var s, t := Flat(a), Flat(b);
    assert |s| == |FlatBytes(a)| == |FlatBytes(b)| == |t|;
    forall i | 0 <= i < |s|
      ensures s[i] == t[i]
    {
      assert FlatBytes(a)[i] == s[i] as int && FlatBytes(b)[i] == t[i] as int;
    }
    FlatInjective(a, b);
  }

  function ClaimTerm(name: InternalTokens.Claim): Term {
    match name
    case Sub => Leaf(0) case Aud => Leaf(1) case Iat => Leaf(2) case Exp => Leaf(3)
    case Alg => Leaf(4) case Typ => Leaf(5) case PrincipalType => Leaf(6)
    case ActorEmail => Leaf(7) case ActorUserId => Leaf(8) case Scopes => Leaf(9) case Scope => Leaf(10)
    case ProjectId => Leaf(11) case CorrelationId => Leaf(12) case Metadata => Leaf(13) case Entitlements => Leaf(14)
    case Other(text) => Node(Leaf(0), TextTerm(text))
  }

  lemma ClaimKeys()
    ensures Injective(ClaimTerm)
  {
    forall a, b | ClaimTerm(a) == ClaimTerm(b)
      ensures a == b
    {
      if a.Other? && b.Other? {
        TextInjective(a.name, b.name);
      }
    }
  }

  ghost function ClaimsTerm(claims: InternalTokens.Claims): Term {
    MapTerm(ClaimTerm, map name | name in claims :: JsonTerm(claims[name]))
  }

  lemma ClaimsInjective(a: InternalTokens.Claims, b: InternalTokens.Claims)
    requires ClaimsTerm(a) == ClaimsTerm(b)
    ensures a == b
  {
    var x, y := map name | name in a :: JsonTerm(a[name]), map name | name in b :: JsonTerm(b[name]);
    ClaimKeys();
    MapInjective(ClaimTerm, x, y);
    assert a.Keys == x.Keys && b.Keys == y.Keys;
    forall name | name in a
      ensures a[name] == b[name]
    {
      assert x[name] == y[name];
      JsonInjective(a[name], b[name]);
    }
  }

  ghost function DumpClaims(claims: InternalTokens.Claims): seq<Byte> {
    FlatBytes(ClaimsTerm(claims))
  }

  ghost function LoadClaims(bytes: seq<Byte>): Option<InternalTokens.Parsed> {
    if exists claims: InternalTokens.Claims :: DumpClaims(claims) == bytes
    then (var claims: InternalTokens.Claims :| DumpClaims(claims) == bytes; Some(InternalTokens.Object(claims)))
    else None
  }

  lemma LoadDumpClaims(claims: InternalTokens.Claims)
    ensures LoadClaims(DumpClaims(claims)) == Some(InternalTokens.Object(claims))
  {
    var bytes := DumpClaims(claims);
    assert DumpClaims(claims) == bytes;
    var found := LoadClaims(bytes).value.claims;
    FlatBytesInjective(ClaimsTerm(found), ClaimsTerm(claims));
    ClaimsInjective(found, claims);
  }

  /** What the tokens assume has a model. */
  lemma TokenLawsMet() returns (lib: InternalTokens.TokenLibrary, py: Tokens.Builtins)
    ensures InternalTokens.LosslessClaims(lib) && Tokens.FaithfulBuiltins(py)
  {
    lib := InternalTokens.TokenLibrary(DumpClaims, LoadClaims, (secret: string, text: string) => []);
    forall claims
      ensures lib.loads(lib.dumps(claims)) == Some(InternalTokens.Object(claims))
    {
      LoadDumpClaims(claims);
    }
    py := Tokens.Builtins(Listed, (j: Json) => if j.JStr? then j.text else "", (j: Json) => None);
    forall s
      ensures Tokens.Elements(py.sorted(s)) == s
    {
      ListedOnce(s);
    }
  }

  ghost function AnyMember(s: set<string>): string
    requires s != {}
    ensures AnyMember(s) in s
  {
    var x :| x in s;
    x
  }

  ghost function Listed(s: set<string>): seq<string> {
    if s == {} then [] else [AnyMember(s)] + Listed(s - {AnyMember(s)})
  }

  lemma {:induction false} ListedOnce(s: set<string>)
    ensures Tokens.Elements(Listed(s)) == s
  {
    if s != {} {
      var x := AnyMember(s);
      ListedOnce(s - {x});
      assert forall y :: y in Listed(s) <==> y == x || y in Tokens.Elements(Listed(s - {x}));
    }
  }

  /** A query can return every row: once each, in some order. */
  lemma QueryLawMet() returns (scan: Scan)
    ensures Enumerates(scan)
  {
    scan := Listed;
    forall names, name
      ensures name in scan(names) <==> name in names
    {
      ListedOnce(names);
      assert name in Listed(names) <==> name in Tokens.Elements(Listed(names));
    }
  }

  // ---- Exports ----

  ghost function RowTerm(row: Export.RowShown): Term {
    ListTerm([ColumnsTerm(row.columns), TextTerm(row.chainKey), IntTerm(row.chainSeq),
      OptionTerm(row.prevRecordHash), TextTerm(row.recordHash)])
  }

  lemma RowInjective(a: Export.RowShown, b: Export.RowShown)
    requires RowTerm(a) == RowTerm(b)
    ensures a == b
  {
    ListInjective(
      [ColumnsTerm(a.columns), TextTerm(a.chainKey), IntTerm(a.chainSeq),
       OptionTerm(a.prevRecordHash), TextTerm(a.recordHash)],
      [ColumnsTerm(b.columns), TextTerm(b.chainKey), IntTerm(b.chainSeq),
       OptionTerm(b.prevRecordHash), TextTerm(b.recordHash)]);
    ColumnsInjective(a.columns, b.columns);
    TextInjective(a.chainKey, b.chainKey);
    OptionInjective(a.prevRecordHash, b.prevRecordHash);
    TextInjective(a.recordHash, b.recordHash);
  }

  ghost function RowsTerm(rows: seq<Export.RowShown>): Term {
    ListTerm(seq(|rows|, i requires 0 <= i < |rows| => RowTerm(rows[i])))
  }

  lemma RowsInjective(a: seq<Export.RowShown>, b: seq<Export.RowShown>)
    requires RowsTerm(a) == RowsTerm(b)
    ensures a == b
  {
    var x := seq(|a|, i requires 0 <= i < |a| => RowTerm(a[i]));
    var y := seq(|b|, i requires 0 <= i < |b| => RowTerm(b[i]));
    ListInjective(x, y);
    forall i | 0 <= i < |a|
      ensures a[i] == b[i]
    {
      assert x[i] == RowTerm(a[i]) && y[i] == RowTerm(b[i]);
      RowInjective(a[i], b[i]);
    }
  }

  function VerificationParts(v: Verification): seq<Term> {
    [TextTerm(v.chainKey), Leaf(if v.valid then 1 else 0), Leaf(v.recordsChecked),
      if v.brokenAtSeq.Some? then Node(Leaf(1), IntTerm(v.brokenAtSeq.value)) else Leaf(0),
      Leaf(match v.reason
           case None => 0 case Some(SequenceGap) => 1 case Some(PrevHashMismatch) => 2 case Some(HashMismatch) => 3)]
  }

  lemma VerificationInjective(a: Verification, b: Verification)
    requires ListTerm(VerificationParts(a)) == ListTerm(VerificationParts(b))
    ensures a == b
  {
    var x, y := VerificationParts(a), VerificationParts(b);
    ListInjective(x, y);
    assert x[0] == y[0] && x[1] == y[1] && x[2] == y[2] && x[3] == y[3] && x[4] == y[4];
    TextInjective(a.chainKey, b.chainKey);
  }

  function HeaderParts(h: Export.ExportDoc): seq<Term> {
    [OptionTerm(h.projectId), TextTerm(h.chainKey), TextTerm(h.generatedAt), OptionTerm(h.since),
      OptionTerm(h.until), ListTerm(VerificationParts(h.chainVerification)), Leaf(h.exportedRecordCount),
      Leaf(h.deadLetteredCount), TextTerm(h.signingKeyFingerprint), TextTerm(h.publicKeyHex)]
  }

  ghost function Encode(d: Export.Unsigned): string {
    Flat(Node(ListTerm(HeaderParts(d.header)), RowsTerm(d.rows)))
  }

  lemma HeaderInjective(a: Export.ExportDoc, b: Export.ExportDoc)
    requires HeaderParts(a) == HeaderParts(b)
    ensures a.(records := [], signatureHex := "") == b.(records := [], signatureHex := "")
  {
    var x, y := HeaderParts(a), HeaderParts(b);
    assert x[0] == y[0] && x[1] == y[1] && x[2] == y[2] && x[3] == y[3] && x[4] == y[4];
    assert x[5] == y[5] && x[6] == y[6] && x[7] == y[7] && x[8] == y[8] && x[9] == y[9];
    OptionInjective(a.projectId, b.projectId);
    TextInjective(a.chainKey, b.chainKey);
    TextInjective(a.generatedAt, b.generatedAt);
    OptionInjective(a.since, b.since);
    OptionInjective(a.until, b.until);
    VerificationInjective(a.chainVerification, b.chainVerification);
    TextInjective(a.signingKeyFingerprint, b.signingKeyFingerprint);
    TextInjective(a.publicKeyHex, b.publicKeyHex);
  }

  function PublicKey(privateKey: string): seq<Byte> {
    FlatBytes(TextTerm(privateKey))
  }

  function Sign(privateKey: string, message: string): seq<Byte> {
    FlatBytes(Node(TextTerm(privateKey), TextTerm(message)))
  }

  ghost predicate Check(key: seq<Byte>, message: string, signature: seq<Byte>) {
    exists privateKey :: key == PublicKey(privateKey) && signature == Sign(privateKey, message)
  }

  lemma CheckBinds(privateKey: string, message: string, key: seq<Byte>, other: string)
    requires Check(key, other, Sign(privateKey, message))
    ensures key == PublicKey(privateKey) && other == message
  {
    var signer :| key == PublicKey(signer) && Sign(privateKey, message) == Sign(signer, other);
    FlatBytesInjective(Node(TextTerm(privateKey), TextTerm(message)), Node(TextTerm(signer), TextTerm(other)));
    TextInjective(privateKey, signer);
    TextInjective(message, other);
  }

  lemma EncodeInjective(a: Export.Unsigned, b: Export.Unsigned)
    requires Encode(a) == Encode(b)
    ensures a == b
  {
    FlatInjective(
      Node(ListTerm(HeaderParts(a.header)), RowsTerm(a.rows)), Node(ListTerm(HeaderParts(b.header)), RowsTerm(b.rows)));
    ListInjective(HeaderParts(a.header), HeaderParts(b.header));
    HeaderInjective(a.header, b.header);
    RowsInjective(a.rows, b.rows);
  }

  /** What the exports assume has a model. */
  lemma ExportLawsMet() returns (signing: Export.Signing)
    ensures Export.Ideal(signing) && Export.LosslessEncoding(signing)
  {
    signing := Export.Signing(Encode, Sign, PublicKey, privateKey => privateKey, key => true, Check);
    forall sk, m
      ensures signing.sign(sk, m) != [] && signing.publicKey(sk) != []
      ensures signing.check(signing.publicKey(sk), m, signing.sign(sk, m))
    {
      FlatHead(TextTerm(sk));
    }
    forall sk, m, pk, n | signing.check(pk, n, signing.sign(sk, m))
      ensures pk == signing.publicKey(sk) && n == m
    {
      CheckBinds(sk, m, pk, n);
    }
    forall a: Export.Unsigned, b: Export.Unsigned | signing.encode(a) == signing.encode(b)
      ensures a == b
    {
      EncodeInjective(a, b);
    }
  }
}
