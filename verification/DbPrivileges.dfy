/** Who holds what after the bootstrap, beyond what the rendered verification looks at (db_contract.py). */
module DbPrivileges {
  import opened Common
  import opened DbCatalog
  import opened DbContract
  import opened DbContractProofs
  import opened DbContractTheorems
  import opened DbFinishing
  import opened DbContractSettling

  /** The table privileges that the contract gives the app role on one relation. */
  function Declared(sp: SchemaPlan, name: Name, kind: RelationKind): set<Privilege> {
    sp.tablePrivileges + if PlainTable(kind) && name in sp.updateTables then {Update} else {}
  }

  /** The app role holds the declared privileges on the table and nothing else; each reader may select. */
  ghost predicate AsDeclared(plan: Plan, sp: SchemaPlan, name: Name, r: Relation) {
    && Held(r.acl, To(plan.app)) == Declared(sp, name, r.kind)
    && forall reader :: reader in plan.readers ==> Select in Held(r.acl, To(reader))
  }

  /** Tables and views are as declared where the admin acts for the owner, and elsewhere as they were. */
  ghost predicate TablesSettled(s: Session, edges: Edges, plan: Plan, sp: SchemaPlan, before: Schema, after: Schema) {
    forall name :: name in before.relations && TableLike(before.relations[name].kind) ==>
      && name in after.relations && after.relations[name].owner == OwnerAfter(plan, sp, before.relations, name)
      && if Acts(s, edges, after.relations[name].owner) then AsDeclared(plan, sp, name, after.relations[name])
         else after.relations[name] == Reassigned(plan, sp, before.relations, name)
  }

  lemma TableGrants(s: Session, edges: Edges, plan: Plan, sp: SchemaPlan, relations: map<Name, Relation>, name: Name,
                    after: Relation)
    requires name in relations && TableLike(relations[name].kind) && plan.app !in plan.readers
    requires after == RelationAfter(s, edges, plan, sp, relations, name) && Acts(s, edges, after.owner)
    ensures AsDeclared(plan, sp, name, after)
  {
    var moved := Reassigned(plan, sp, relations, name);
    RelationAclHolds(plan, sp, name, moved.kind, moved.acl);
    assert Held(after.acl, To(plan.app))
      == TableEntry(plan, sp, name, moved.kind, To(plan.app), Held(moved.acl, To(plan.app)));
    forall reader | reader in plan.readers
      ensures Select in Held(after.acl, To(reader))
    {
      assert Held(after.acl, To(reader))
        == TableEntry(plan, sp, name, moved.kind, To(reader), Held(moved.acl, To(reader)));
    }
  }

  /**
    Whatever the app role could do before, afterwards it can do to these tables what the contract declares, and
    only that.
   */
  lemma TablesEndAsDeclared(s: Session, edges: Edges, plan: Plan, sp: SchemaPlan, before: Schema, after: Schema)
    requires after == SchemaAfter(s, edges, plan, sp, before) && plan.app !in plan.readers
    ensures TablesSettled(s, edges, plan, sp, before, after)
  {
    forall name | name in before.relations && TableLike(before.relations[name].kind)
      ensures after.relations[name] == RelationAfter(s, edges, plan, sp, before.relations, name)
      ensures Acts(s, edges, after.relations[name].owner) ==> AsDeclared(plan, sp, name, after.relations[name])
    {
      if Acts(s, edges, after.relations[name].owner) {
        TableGrants(s, edges, plan, sp, before.relations, name, after.relations[name]);
      }
    }
  }

  /** The schema itself, and the sequences and functions of owners that the admin acts for, can be used. */
  ghost predicate UsableByApp(s: Session, edges: Edges, plan: Plan, sp: SchemaPlan, schema: Schema) {
    && Usage in Held(schema.acl, To(plan.app))
    && (forall reader :: reader in plan.readers ==> Usage in Held(schema.acl, To(reader)))
    && (forall name :: name in schema.relations && schema.relations[name].kind == Sequence
                       && Acts(s, edges, schema.relations[name].owner) ==>
          sp.sequencePrivileges <= Held(schema.relations[name].acl, To(plan.app)))
    && (forall name :: name in schema.routines && schema.routines[name].kind == Function
                       && Acts(s, edges, schema.routines[name].owner) ==>
          sp.functionPrivileges <= Held(schema.routines[name].acl, To(plan.app)))
  }

  lemma SequenceUsable(s: Session, edges: Edges, plan: Plan, sp: SchemaPlan, relations: map<Name, Relation>, name: Name)
    requires name in relations && relations[name].kind == Sequence
    ensures var after := RelationAfter(s, edges, plan, sp, relations, name);
      Acts(s, edges, after.owner) ==> sp.sequencePrivileges <= Held(after.acl, To(plan.app))
  {}

  lemma SchemaUsable(plan: Plan, sp: SchemaPlan, owner: Role, acl: Acl)
    ensures Usage in Held(SchemaAcl(plan, sp, owner, acl), To(plan.app))
    ensures forall reader :: reader in plan.readers ==> Usage in Held(SchemaAcl(plan, sp, owner, acl), To(reader))
  {
    var after, moved := SchemaAcl(plan, sp, owner, acl), OwnerMoved(acl, owner, plan.ddl);
    SchemaAclHolds(plan, sp, owner, acl);
    assert Held(after, To(plan.app)) == SchemaEntry(plan, sp, To(plan.app), Held(moved, To(plan.app)));
    forall reader | reader in plan.readers
      ensures Usage in Held(after, To(reader))
    {
      assert Held(after, To(reader)) == SchemaEntry(plan, sp, To(reader), Held(moved, To(reader)));
    }
  }

  lemma SchemaEndsUsable(s: Session, edges: Edges, plan: Plan, sp: SchemaPlan, before: Schema, after: Schema)
    requires after == SchemaAfter(s, edges, plan, sp, before)
    ensures UsableByApp(s, edges, plan, sp, after)
  {
    SchemaUsable(plan, sp, before.owner, before.acl);
    forall name | name in after.relations && after.relations[name].kind == Sequence
      ensures Acts(s, edges, after.relations[name].owner)
        ==> sp.sequencePrivileges <= Held(after.relations[name].acl, To(plan.app))
    {
      SequenceUsable(s, edges, plan, sp, before.relations, name);
    }
    forall name | name in after.routines && after.routines[name].kind == Function
      && Acts(s, edges, after.routines[name].owner)
      ensures sp.functionPrivileges <= Held(after.routines[name].acl, To(plan.app))
    {
      assert after.routines[name] == RoutineAfter(s, edges, plan, sp, before.routines[name]);
    }
  }

  /** Tables, sequences and functions that the DDL role creates later come with the app role's privileges. */
  lemma FutureObjectsCovered(admin: Role, plan: Plan, sp: SchemaPlan, before: Schema, after: Schema)
    requires after.defaults == DefaultsAfter(admin, plan, sp, before.defaults) && admin != plan.ddl
    ensures sp.tablePrivileges <= Held(Default(after, plan.ddl, OnTables), To(plan.app))
    ensures sp.sequencePrivileges <= Held(Default(after, plan.ddl, OnSequences), To(plan.app))
    ensures sp.functionPrivileges <= Held(Default(after, plan.ddl, OnFunctions), To(plan.app))
    ensures forall reader :: reader in plan.readers ==> Select in Held(Default(after, plan.ddl, OnTables), To(reader))
    ensures sp.retiresAdminDefaults ==>
      Held(Default(after, admin, OnTables), To(plan.app)) == {}
        && Held(Default(after, admin, OnSequences), To(plan.app)) == {}
  {
    var tables := Grant(DefaultOf(before.defaults, plan.ddl, OnTables), To(plan.app), sp.tablePrivileges);
    DefaultsHold(admin, plan, sp, before.defaults, plan.ddl, OnTables);
    DefaultsHold(admin, plan, sp, before.defaults, plan.ddl, OnSequences);
    DefaultsHold(admin, plan, sp, before.defaults, plan.ddl, OnFunctions);
    DefaultsHold(admin, plan, sp, before.defaults, admin, OnTables);
    DefaultsHold(admin, plan, sp, before.defaults, admin, OnSequences);
    GrantEachHolds(tables, plan.readers, {Select});
    forall g
      ensures Held(Default(after, plan.ddl, OnTables), g) == Held(tables, g) + ReaderShare(plan.readers, g, {Select})
    {}
    if sp.retiresAdminDefaults {
      EverythingIsAll(Held(DefaultOf(before.defaults, admin, OnTables), To(plan.app)));
      EverythingIsAll(Held(DefaultOf(before.defaults, admin, OnSequences), To(plan.app)));
    }
  }

  /**
    The database: the DDL role may connect and create, the app role and the readers may connect, the app role
    may not create.
   */
  ghost predicate DatabaseDeclared(plan: Plan, acl: Acl) {
    && {Connect, Create} <= Held(acl, To(plan.ddl))
    && Connect in Held(acl, To(plan.app)) && Create !in Held(acl, To(plan.app))
    && forall reader :: reader in plan.readers ==> Connect in Held(acl, To(reader))
  }

  lemma DatabaseEndsAsDeclared(plan: Plan, before: Acl, after: Acl)
    requires after == DatabaseAcl(plan, before) && plan.ddl != plan.app
    ensures DatabaseDeclared(plan, after)
  {
    DatabaseAclHolds(plan, before);
    assert Held(after, To(plan.ddl)) == DatabaseEntry(plan, To(plan.ddl), Held(before, To(plan.ddl)));
    assert Held(after, To(plan.app)) == DatabaseEntry(plan, To(plan.app), Held(before, To(plan.app)));
    forall reader | reader in plan.readers
      ensures Connect in Held(after, To(reader))
    {
      assert Held(after, To(reader)) == DatabaseEntry(plan, To(reader), Held(before, To(reader)));
    }
  }

  /** What a finished script leaves of one governed schema. */
  ghost predicate GrantsInPlace(s: Session, edges: Edges, plan: Plan, sp: SchemaPlan, before: Schema,
                                schemas: map<Name, Schema>) {
    && sp.name in schemas && TablesSettled(s, edges, plan, sp, before, schemas[sp.name])
    && UsableByApp(s, edges, plan, sp, schemas[sp.name]) && Acts(s, edges, plan.ddl)
  }

  /**
    From any catalog in which the script finishes, every table that ends as the DDL role's carries exactly the
    declared privileges, and so does any other whose owner the admin acts for; schema and database can be used.
   */
  lemma BootstrapGrants(s: Session, plan: Plan, scan: Scan, c: Catalog, o: Outcome, i: nat)
    requires Enumerates(scan) && DistinctNames(plan.schemas) && i < |plan.schemas| && plan.app !in plan.readers
    requires Script(s, plan, scan, c) == Some(o)
    ensures GrantsInPlace(s, ScriptEdges(s, plan, scan, c)[i], plan, plan.schemas[i],
                          SchemaOrNew(s.admin, c.schemas, plan.schemas[i].name), o.catalog.schemas)
    ensures plan.ddl != plan.app ==> DatabaseDeclared(plan, o.catalog.databaseAcl)
  {
    var sp, edges := plan.schemas[i], ScriptEdges(s, plan, scan, c)[i];
    var before := SchemaOrNew(s.admin, c.schemas, sp.name);
    FinishedMeans(s, plan, scan, c);
    BootstrapReaches(s, plan, scan, c, i, before);
    TablesEndAsDeclared(s, edges, plan, sp, before, SchemaAfter(s, edges, plan, sp, before));
    SchemaEndsUsable(s, edges, plan, sp, before, SchemaAfter(s, edges, plan, sp, before));
    DatabaseReached(s, plan, scan, c);
    if plan.ddl != plan.app {
      DatabaseEndsAsDeclared(plan, c.databaseAcl, o.catalog.databaseAcl);
    }
  }

  lemma DatabaseReached(s: Session, plan: Plan, scan: Scan, c: Catalog)
    requires Enumerates(scan) && DistinctNames(plan.schemas)
    ensures Bootstrapped(s, plan, scan, c).catalog.databaseAcl == DatabaseAcl(plan, c.databaseAcl)
  {
    BlocksKeepRoles(s, plan, plan.schemas, scan, Opened(s, plan, c));
    ClosedSchemas(s, plan, SchemaBlocks(s, plan, plan.schemas, scan, Opened(s, plan, c)));
  }

  // ---- The append-only promise, read off the starting catalog ----

  /** PUBLIC cannot rewrite a fact table; no statement of the script looks at PUBLIC's table privileges. */
  ghost predicate PublicReadsOnly(sp: SchemaPlan, schema: Schema) {
    forall name :: name in schema.relations && FactTable(sp, name, schema.relations[name]) ==>
      !PublicRewrites(schema.relations[name].acl)
  }

  /** No extension brought a table into the schema. */
  ghost predicate OwnTables(schema: Schema) {
    forall name ::
      name in schema.relations && PlainTable(schema.relations[name].kind) ==> !schema.relations[name].extension
  }

  lemma TamedIffPublic(s: Session, edges: Edges, plan: Plan, sp: SchemaPlan, schema: Schema)
    requires sp.appOwnedLike == [] && OwnTables(schema) && Acts(s, edges, plan.ddl)
    ensures Tamed(s, edges, plan, sp, schema) <==> PublicReadsOnly(sp, schema)
  {
    forall name | name in schema.relations && FactTable(sp, name, schema.relations[name])
      ensures StaysRewritable(s, edges, plan, sp, schema.relations, name)
        <==> PublicRewrites(schema.relations[name].acl)
    {
      assert OwnerAfter(plan, sp, schema.relations, name) == plan.ddl;
    }
  }

  ghost predicate PublicReadsOnlyThroughout(s: Session, plan: Plan, c: Catalog) {
    forall i :: 0 <= i < |plan.schemas| ==>
      PublicReadsOnly(plan.schemas[i], SchemaOrNew(s.admin, c.schemas, plan.schemas[i].name))
  }

  /**
    Where no extension brought tables along, a finished shared bootstrap verifies if and only if PUBLIC could
    not update or delete from a fact table to begin with.
   */
  lemma SharedVerifiesIffPublic(s: Session, plan: Plan, scan: Scan, c: Catalog, o: Outcome)
    requires Enumerates(scan) && DistinctNames(plan.schemas) && Separate(s, plan, c) && s.admin != plan.ddl
    requires forall sp :: sp in plan.schemas ==>
      Update !in sp.tablePrivileges && Delete !in sp.tablePrivileges && sp.appOwnedLike == []
      && OwnTables(SchemaOrNew(s.admin, c.schemas, sp.name))
    requires Script(s, plan, scan, c) == Some(o)
    ensures SharedVerifies(s.superusers, plan, o.catalog) <==> PublicReadsOnlyThroughout(s, plan, c)
  {
    SharedBootstrapVerifies(s, plan, scan, c, o);
    FinishedMeans(s, plan, scan, c);
    forall i | 0 <= i < |plan.schemas|
      ensures TamedAt(s, ScriptEdges(s, plan, scan, c)[i], plan, plan.schemas[i], c)
        <==> PublicReadsOnly(plan.schemas[i], SchemaOrNew(s.admin, c.schemas, plan.schemas[i].name))
    {
      assert plan.schemas[i] in plan.schemas;
      TamedIffPublic(s, ScriptEdges(s, plan, scan, c)[i], plan, plan.schemas[i],
        SchemaOrNew(s.admin, c.schemas, plan.schemas[i].name));
    }
  }
}
