/** The grants on existing relations as statements, one after the other (_schema_grants and render_shared_bootstrap). */
module DbStatements {
  import opened Common
  import opened DbCatalog
  import opened DbContract
  import opened DbContractProofs

  datatype RelationGrant =
    | RevokeAllOnTables(role: Role)
    | OnAllTables(role: Role, privileges: set<Privilege>)
    | OnAllSequences(role: Role, privileges: set<Privilege>)
    | OnTable(table: Name, role: Role, privileges: set<Privilege>)

  /** The relations that a statement names. */
  predicate Concerns(g: RelationGrant, name: Name, kind: RelationKind) {
    match g
    case RevokeAllOnTables(_) => TableLike(kind)
    case OnAllTables(_, _) => TableLike(kind)
    case OnAllSequences(_, _) => kind == Sequence
    case OnTable(table, _, _) => name == table && PlainTable(kind)
  }

  /** What a statement that takes effect does to an access list. */
  function AclAfter(g: RelationGrant, name: Name, kind: RelationKind, acl: Acl): Acl {
    if !Concerns(g, name, kind) then acl
    else if g.RevokeAllOnTables? then Revoke(acl, To(g.role), ALL_PRIVILEGES)
    else Grant(acl, To(g.role), g.privileges)
  }

  function AclAfterAll(gs: seq<RelationGrant>, name: Name, kind: RelationKind, acl: Acl): Acl {
    if gs == [] then acl
    else AclAfter(gs[|gs| - 1], name, kind, AclAfterAll(gs[..|gs| - 1], name, kind, acl))
  }

  function UpdateGrants(app: Role, tables: seq<Name>): seq<RelationGrant> {
    seq(|tables|, i requires 0 <= i < |tables| => OnTable(tables[i], app, {Update}))
  }

  function ReaderGrants(readers: seq<Role>): seq<RelationGrant> {
    seq(|readers|, i requires 0 <= i < |readers| => OnAllTables(readers[i], {Select}))
  }

  function FirstGrants(plan: Plan, sp: SchemaPlan): seq<RelationGrant> {
    [RevokeAllOnTables(plan.app), OnAllTables(plan.app, sp.tablePrivileges),
      OnAllSequences(plan.app, sp.sequencePrivileges)]
  }

  /** The statements on relations, in the order in which the script gives them. */
  function RelationGrants(plan: Plan, sp: SchemaPlan): seq<RelationGrant> {
    FirstGrants(plan, sp) + UpdateGrants(plan.app, sp.updateTables) + ReaderGrants(plan.readers)
  }

  lemma {:induction false} AclAfterBoth(a: seq<RelationGrant>, b: seq<RelationGrant>, name: Name, kind: RelationKind,
                                        acl: Acl)
    ensures AclAfterAll(a + b, name, kind, acl) == AclAfterAll(b, name, kind, AclAfterAll(a, name, kind, acl))
    decreases |b|
  {
    if b == [] {
      assert a + b == a;
    } else {
      AclAfterBoth(a, b[..|b| - 1], name, kind, acl);
      assert (a + b)[..|a + b| - 1] == a + b[..|b| - 1];
    }
  }

  lemma FirstGrantsDo(plan: Plan, sp: SchemaPlan, name: Name, kind: RelationKind, acl: Acl)
    ensures AclAfterAll(FirstGrants(plan, sp), name, kind, acl)
      == if TableLike(kind) then Grant(Revoke(acl, To(plan.app), ALL_PRIVILEGES), To(plan.app), sp.tablePrivileges)
         else if kind == Sequence then Grant(acl, To(plan.app), sp.sequencePrivileges)
         else acl
  {
    var gs := FirstGrants(plan, sp);
    assert gs[..2][..1] == gs[..1] && gs[..1][..0] == [];
    assert AclAfterAll(gs[..1], name, kind, acl) == AclAfter(gs[0], name, kind, acl);
    assert AclAfterAll(gs[..2], name, kind, acl) == AclAfter(gs[1], name, kind, AclAfter(gs[0], name, kind, acl));
  }

  lemma GrantedAgain(acl: Acl, grantee: Grantee, privileges: set<Privilege>)
    ensures Grant(Grant(acl, grantee, privileges), grantee, privileges) == Grant(acl, grantee, privileges)
  {
    var once := Grant(acl, grantee, privileges);
    assert Held(once, grantee) + privileges == Held(once, grantee);
    assert once[grantee := once[grantee]] == once;
  }

  /** Naming a table more than once does no more than naming it once. */
  lemma {:induction false} UpdateGrantsDo(app: Role, tables: seq<Name>, name: Name, kind: RelationKind, acl: Acl)
    ensures AclAfterAll(UpdateGrants(app, tables), name, kind, acl)
      == if PlainTable(kind) && name in tables then Grant(acl, To(app), {Update}) else acl
    decreases |tables|
  {
    if tables != [] {
      var n := |tables| - 1;
      UpdateGrantsDo(app, tables[..n], name, kind, acl);
      assert UpdateGrants(app, tables)[..n] == UpdateGrants(app, tables[..n]);
      assert tables == tables[..n] + [tables[n]];
      GrantedAgain(acl, To(app), {Update});
    }
  }

  lemma {:induction false} ReaderGrantsDo(readers: seq<Role>, name: Name, kind: RelationKind, acl: Acl)
    ensures AclAfterAll(ReaderGrants(readers), name, kind, acl)
      == if TableLike(kind) then GrantEach(acl, readers, {Select}) else acl
    decreases |readers|
  {
    if readers != [] {
      var n := |readers| - 1;
      ReaderGrantsDo(readers[..n], name, kind, acl);
      assert ReaderGrants(readers)[..n] == ReaderGrants(readers[..n]);
    }
  }

  /** Statement by statement, a relation's access list becomes what the contract says of it. */
  lemma RelationGrantsDo(plan: Plan, sp: SchemaPlan, name: Name, kind: RelationKind, acl: Acl)
    ensures AclAfterAll(RelationGrants(plan, sp), name, kind, acl) == RelationAcl(plan, sp, name, kind, acl)
  {
    var first := AclAfterAll(FirstGrants(plan, sp), name, kind, acl);
    var second := AclAfterAll(UpdateGrants(plan.app, sp.updateTables), name, kind, first);
    AclAfterBoth(FirstGrants(plan, sp), UpdateGrants(plan.app, sp.updateTables), name, kind, acl);
    AclAfterBoth(FirstGrants(plan, sp) + UpdateGrants(plan.app, sp.updateTables), ReaderGrants(plan.readers), name,
      kind, acl);
    FirstGrantsDo(plan, sp, name, kind, acl);
    UpdateGrantsDo(plan.app, sp.updateTables, name, kind, first);
    ReaderGrantsDo(plan.readers, name, kind, second);
  }

  // ---- On whole schemas ----

  /**
    The relations after some statements: nothing but access lists changes, and only where the admin acts for
    the owner.
   */
  function RelationsGranted(s: Session, edges: Edges, gs: seq<RelationGrant>,
                            relations: map<Name, Relation>): map<Name, Relation> {
    map name | name in relations :: RelationGranted(s, edges, gs, name, relations[name])
  }

  function RelationGranted(s: Session, edges: Edges, gs: seq<RelationGrant>, name: Name, r: Relation): Relation {
    if Acts(s, edges, r.owner) then r.(acl := AclAfterAll(gs, name, r.kind, r.acl)) else r
  }

  /** The statement is no error on any relation it names. */
  predicate GrantRunsOn(s: Session, edges: Edges, g: RelationGrant, relations: map<Name, Relation>) {
    forall name :: name in relations && Concerns(g, name, relations[name].kind) ==>
      GrantRuns(s, edges, relations[name].owner, relations[name].acl)
  }

  predicate AllRunOn(s: Session, edges: Edges, gs: seq<RelationGrant>, relations: map<Name, Relation>) {
    forall g :: g in gs ==> GrantRunsOn(s, edges, g, relations)
  }

  /** One more statement, on the relations that the earlier ones left. */
  lemma OneMoreGrant(s: Session, edges: Edges, gs: seq<RelationGrant>, i: nat, relations: map<Name, Relation>,
                     sofar: map<Name, Relation>)
    requires i < |gs| && sofar == RelationsGranted(s, edges, gs[..i], relations)
    ensures GrantRunsOn(s, edges, gs[i], sofar) <==> GrantRunsOn(s, edges, gs[i], relations)
    ensures RelationsGranted(s, edges, [gs[i]], sofar) == RelationsGranted(s, edges, gs[..i + 1], relations)
  {
    forall name | name in relations
      ensures sofar[name].owner == relations[name].owner && sofar[name].kind == relations[name].kind
      ensures GrantRuns(s, edges, sofar[name].owner, sofar[name].acl)
        <==> GrantRuns(s, edges, relations[name].owner, relations[name].acl)
      ensures RelationGranted(s, edges, [gs[i]], name, sofar[name])
        == RelationGranted(s, edges, gs[..i + 1], name, relations[name])
    {
      OneMoreOn(s, edges, gs, i, name, relations[name]);
    }
  }

  lemma OneMoreOn(s: Session, edges: Edges, gs: seq<RelationGrant>, i: nat, name: Name, r: Relation)
    requires i < |gs|
    ensures RelationGranted(s, edges, [gs[i]], name, RelationGranted(s, edges, gs[..i], name, r))
      == RelationGranted(s, edges, gs[..i + 1], name, r)
  {
    assert gs[..i + 1] == gs[..i] + [gs[i]];
    AclAfterBoth(gs[..i], [gs[i]], name, r.kind, r.acl);
  }

  /** Every relation that the contract's grants cover is named by one of its first statements. */
  lemma AllRunIff(s: Session, edges: Edges, plan: Plan, sp: SchemaPlan, relations: map<Name, Relation>)
    ensures AllRunOn(s, edges, RelationGrants(plan, sp), relations) <==>
      forall name :: name in relations && Covered(relations[name].kind) ==>
        GrantRuns(s, edges, relations[name].owner, relations[name].acl)
  {
    var gs := RelationGrants(plan, sp);
    assert gs[0] == RevokeAllOnTables(plan.app) && gs[2] == OnAllSequences(plan.app, sp.sequencePrivileges);
    if AllRunOn(s, edges, gs, relations) {
      assert gs[0] in gs && gs[2] in gs;
      assert GrantRunsOn(s, edges, gs[0], relations) && GrantRunsOn(s, edges, gs[2], relations);
      forall name | name in relations && Covered(relations[name].kind)
        ensures GrantRuns(s, edges, relations[name].owner, relations[name].acl)
      {
        assert Concerns(gs[0], name, relations[name].kind) || Concerns(gs[2], name, relations[name].kind);
      }
    }
  }

  /** All statements on all relations amount to what the contract says of each. */
  lemma AllGranted(s: Session, edges: Edges, plan: Plan, sp: SchemaPlan, relations: map<Name, Relation>,
                   moved: map<Name, Relation>)
    requires moved == map name | name in relations :: Reassigned(plan, sp, relations, name)
    ensures RelationsGranted(s, edges, RelationGrants(plan, sp), moved) == RelationsAfter(s, edges, plan, sp, relations)
  {
    forall name | name in relations
      ensures RelationGranted(s, edges, RelationGrants(plan, sp), name, moved[name])
        == RelationAfter(s, edges, plan, sp, relations, name)
    {
      RelationGrantsDo(plan, sp, name, moved[name].kind, moved[name].acl);
    }
  }
}
