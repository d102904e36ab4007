/** What a finished bootstrap and the verification mean object by object, told from the kinds of the catalog. */
module DbByKind {
  import opened Common
  import opened DbCatalog
  import opened DbContract
  import opened DbContractProofs
  import opened DbContractTheorems
  import opened DbFinishing
  import opened DbPrivileges
  import opened DbRegistry

  /** Tables, views and sequences that stand on their own; not what an extension brought. */
  predicate Governed(r: Relation) {
    && !r.extension
    && (r.kind == Table || r.kind == PartitionedTable || r.kind == View || r.kind == MaterializedView
        || (r.kind == Sequence && r.serial.None?))
  }

  /** The name fits a pattern for relations that the service makes itself. */
  predicate RuntimeName(sp: SchemaPlan, name: Name) {
    exists i :: 0 <= i < |sp.appOwnedLike| && Like(name, sp.appOwnedLike[i])
  }

  /** The DDL role owns it, or the app role does and its name is a runtime one. */
  predicate ProperlyOwned(plan: Plan, sp: SchemaPlan, name: Name, owner: Role) {
    owner == plan.ddl || (owner == plan.app && RuntimeName(sp, name))
  }

  lemma RuntimeNameIff(sp: SchemaPlan, name: Name)
    ensures RuntimeOwned(sp, name) <==> RuntimeName(sp, name)
  {
    if RuntimeOwned(sp, name) {
      var pattern :| pattern in sp.appOwnedLike && Like(name, pattern);
      var i :| 0 <= i < |sp.appOwnedLike| && sp.appOwnedLike[i] == pattern;
    }
  }

  /** LIKE: a plain pattern fits itself, an escaped character itself, `_` one character and `%` anything. */
  lemma LikeMeans(name: string, pattern: string, c: char)
    ensures (forall i :: 0 <= i < |pattern| ==> pattern[i] != '%' && pattern[i] != '_' && pattern[i] != '\\') ==>
      (Like(name, pattern) <==> name == pattern)
    ensures Like(name, "\\" + [c]) <==> name == [c]
    ensures Like(name, "_") <==> |name| == 1
    ensures Like(name, "%")
  {
    if forall i :: 0 <= i < |pattern| ==> pattern[i] != '%' && pattern[i] != '_' && pattern[i] != '\\' {
      LikeItself(name, pattern);
    }
    LikeAnything(name);
    var escaped := "\\" + [c];
    assert escaped[0] == '\\' && escaped[1] == c && escaped[2..] == [];
    assert name != [] ==> name == [name[0]] + name[1..];
    assert "_"[1..] == [];
  }

  lemma {:induction false} LikeItself(name: string, pattern: string)
    requires forall i :: 0 <= i < |pattern| ==> pattern[i] != '%' && pattern[i] != '_' && pattern[i] != '\\'
    ensures Like(name, pattern) <==> name == pattern
    decreases |pattern|
  {
    if pattern != [] && name != [] {
      LikeItself(name[1..], pattern[1..]);
      assert name == [name[0]] + name[1..] && pattern == [pattern[0]] + pattern[1..];
    }
  }

  lemma {:induction false} LikeAnything(name: string)
    ensures Like(name, "%")
  {
    assert "%"[1..] == [];
    if name != [] {
      LikeAnything(name[1..]);
    }
  }

  // ---- What the bootstrap leaves ----

  /** Nothing comes or goes, and nothing changes its kind. */
  predicate SameThings(before: Schema, after: Schema) {
    && after.relations.Keys == before.relations.Keys && after.routines.Keys == before.routines.Keys
    && (forall name :: name in before.relations ==>
          && name in after.relations && after.relations[name].kind == before.relations[name].kind
          && after.relations[name].serial == before.relations[name].serial
          && after.relations[name].extension == before.relations[name].extension)
    && (forall name :: name in before.routines ==>
          && name in after.routines && after.routines[name].kind == before.routines[name].kind
          && after.routines[name].extension == before.routines[name].extension)
  }

  /** Everything that the contract governs has its owner, and what extensions brought has kept its own. */
  ghost predicate OwnersInPlace(plan: Plan, sp: SchemaPlan, before: Schema, after: Schema) {
    && after.owner == plan.ddl && SameThings(before, after)
    && RelationsInPlace(plan, sp, before.relations, after.relations)
    && SerialsFollow(before.relations, after.relations)
    && RoutinesInPlace(plan, before.routines, after.routines)
  }

  ghost predicate RelationsInPlace(plan: Plan, sp: SchemaPlan, before: map<Name, Relation>, after: map<Name, Relation>)
    requires after.Keys == before.Keys
  {
    && (forall name :: name in after && Governed(after[name]) ==>
          after[name].owner == if RuntimeName(sp, name) then plan.app else plan.ddl)
    && (forall name :: name in after && after[name].extension && after[name].serial.None? ==>
          after[name].owner == before[name].owner)
  }

  /** The sequence of a serial column goes where its table goes. */
  ghost predicate SerialsFollow(before: map<Name, Relation>, after: map<Name, Relation>)
    requires after.Keys == before.Keys
  {
    forall name, table :: name in after && table in after && Governed(after[table])
                          && after[name].kind == Sequence && after[name].serial == Some(table)
                          && before[table].owner != after[table].owner ==>
      after[name].owner == after[table].owner
  }

  ghost predicate RoutinesInPlace(plan: Plan, before: map<Name, Routine>, after: map<Name, Routine>)
    requires after.Keys == before.Keys
  {
    forall name :: name in after ==>
      after[name].owner == if after[name].extension then before[name].owner else plan.ddl
  }

  lemma RelationOwner(s: Session, edges: Edges, plan: Plan, sp: SchemaPlan, relations: map<Name, Relation>, name: Name)
    requires name in relations
    ensures var after := RelationAfter(s, edges, plan, sp, relations, name);
      && after.kind == relations[name].kind && after.serial == relations[name].serial
      && after.extension == relations[name].extension
      && (Governed(after) ==> after.owner == if RuntimeName(sp, name) then plan.app else plan.ddl)
      && (after.extension && after.serial.None? ==> after.owner == relations[name].owner)
  {
    RuntimeNameIff(sp, name);
  }

  lemma SerialOwner(s: Session, edges: Edges, plan: Plan, sp: SchemaPlan, relations: map<Name, Relation>, name: Name,
                    table: Name)
    requires name in relations && table in relations && relations[name].kind == Sequence
    requires relations[name].serial == Some(table) && Governed(relations[table])
    requires relations[table].owner != RelationAfter(s, edges, plan, sp, relations, table).owner
    ensures RelationAfter(s, edges, plan, sp, relations, name).owner
      == RelationAfter(s, edges, plan, sp, relations, table).owner
  {}

  lemma RelationsOwnedByKind(s: Session, edges: Edges, plan: Plan, sp: SchemaPlan, before: map<Name, Relation>)
    ensures RelationsInPlace(plan, sp, before, RelationsAfter(s, edges, plan, sp, before))
  {
    forall name | name in before
      ensures var after := RelationAfter(s, edges, plan, sp, before, name);
        && (Governed(after) ==> after.owner == if RuntimeName(sp, name) then plan.app else plan.ddl)
        && (after.extension && after.serial.None? ==> after.owner == before[name].owner)
    {
      RelationOwner(s, edges, plan, sp, before, name);
    }
  }

  lemma SerialsOwned(s: Session, edges: Edges, plan: Plan, sp: SchemaPlan, before: map<Name, Relation>)
    ensures SerialsFollow(before, RelationsAfter(s, edges, plan, sp, before))
  {
    var after := RelationsAfter(s, edges, plan, sp, before);
    forall name, table | name in after && table in after && Governed(after[table])
      && after[name].kind == Sequence && after[name].serial == Some(table) && before[table].owner != after[table].owner
      ensures after[name].owner == after[table].owner
    {
      assert after[name] == RelationAfter(s, edges, plan, sp, before, name);
      assert after[table] == RelationAfter(s, edges, plan, sp, before, table);
      SerialOwner(s, edges, plan, sp, before, name, table);
    }
  }

  lemma RoutineOwner(s: Session, edges: Edges, plan: Plan, sp: SchemaPlan, r: Routine)
    requires r.kind == Procedure && !r.extension ==> r.owner == plan.ddl
    ensures var after := RoutineAfter(s, edges, plan, sp, r);
      && after.kind == r.kind && after.extension == r.extension
      && after.owner == if r.extension then r.owner else plan.ddl
  {}

  lemma RoutinesOwned(s: Session, edges: Edges, plan: Plan, sp: SchemaPlan, before: Schema)
    requires NoStrayProcedure(plan, before)
    ensures RoutinesInPlace(plan, before.routines, RoutinesAfter(s, edges, plan, sp, before.routines))
  {
    forall name | name in before.routines
      ensures var after := RoutineAfter(s, edges, plan, sp, before.routines[name]);
        after.owner == if after.extension then before.routines[name].owner else plan.ddl
    {
      assert !StrayProcedure(plan, before, name);
      RoutineOwner(s, edges, plan, sp, before.routines[name]);
    }
  }

  lemma RelationsKeepKinds(s: Session, edges: Edges, plan: Plan, sp: SchemaPlan, before: map<Name, Relation>)
    ensures forall name :: name in before ==>
      var r, after := before[name], RelationsAfter(s, edges, plan, sp, before)[name];
      after.kind == r.kind && after.serial == r.serial && after.extension == r.extension
  {
    forall name | name in before
      ensures var r, after := before[name], RelationAfter(s, edges, plan, sp, before, name);
        after.kind == r.kind && after.serial == r.serial && after.extension == r.extension
    {
      RelationOwner(s, edges, plan, sp, before, name);
    }
  }

  lemma RoutinesKeepKinds(s: Session, edges: Edges, plan: Plan, sp: SchemaPlan, before: map<Name, Routine>)
    ensures forall name :: name in before ==>
      var r, after := before[name], RoutinesAfter(s, edges, plan, sp, before)[name];
      after.kind == r.kind && after.extension == r.extension
  {}

  lemma BlockKeepsThings(s: Session, edges: Edges, plan: Plan, sp: SchemaPlan, before: Schema)
    ensures SameThings(before, SchemaAfter(s, edges, plan, sp, before))
  {
    RelationsKeepKinds(s, edges, plan, sp, before.relations);
    RoutinesKeepKinds(s, edges, plan, sp, before.routines);
  }

  lemma BlockOwners(s: Session, edges: Edges, plan: Plan, sp: SchemaPlan, before: Schema)
    requires NoStrayProcedure(plan, before)
    ensures OwnersInPlace(plan, sp, before, SchemaAfter(s, edges, plan, sp, before))
  {
    BlockKeepsThings(s, edges, plan, sp, before);
    RelationsOwnedByKind(s, edges, plan, sp, before.relations);
    SerialsOwned(s, edges, plan, sp, before.relations);
    RoutinesOwned(s, edges, plan, sp, before);
  }

  /** After a finished script every governed object has the owner that the contract gives it. */
  lemma FinishedMeansOwned(s: Session, plan: Plan, scan: Scan, c: Catalog, o: Outcome, i: nat)
    requires Enumerates(scan) && DistinctNames(plan.schemas) && i < |plan.schemas|
    requires Script(s, plan, scan, c) == Some(o)
    ensures var sp := plan.schemas[i];
      && sp.name in o.catalog.schemas
      && OwnersInPlace(plan, sp, SchemaOrNew(s.admin, c.schemas, sp.name), o.catalog.schemas[sp.name])
  {
    FinishedMeans(s, plan, scan, c);
    assert plan.schemas[i] in plan.schemas;
    SchemaOwned(s, plan, scan, c, i);
  }

  lemma SchemaOwned(s: Session, plan: Plan, scan: Scan, c: Catalog, i: nat)
    requires Enumerates(scan) && DistinctNames(plan.schemas) && i < |plan.schemas|
    requires NoStrayProcedure(plan, SchemaOrNew(s.admin, c.schemas, plan.schemas[i].name))
    ensures var sp, after := plan.schemas[i], Bootstrapped(s, plan, scan, c).catalog.schemas;
      && sp.name in after
      && OwnersInPlace(plan, sp, SchemaOrNew(s.admin, c.schemas, sp.name), after[sp.name])
  {
    var before := SchemaOrNew(s.admin, c.schemas, plan.schemas[i].name);
    BootstrapReaches(s, plan, scan, c, i, before);
    BlockOwners(s, ScriptEdges(s, plan, scan, c)[i], plan, plan.schemas[i], before);
  }

  /** What GRANT .. ON ALL TABLES reaches. */
  predicate Selectable(kind: RelationKind) {
    kind == Table || kind == PartitionedTable || kind == View || kind == MaterializedView || kind == ForeignTable
  }

  /** On everything that can be selected from and whose owner the admin acts for, the lists are the declared ones. */
  ghost predicate ListsInPlace(s: Session, edges: Edges, plan: Plan, sp: SchemaPlan, schema: Schema) {
    && (forall name :: name in schema.relations && Selectable(schema.relations[name].kind)
                       && Acts(s, edges, schema.relations[name].owner) ==>
          var r := schema.relations[name];
          && Held(r.acl, To(plan.app)) == sp.tablePrivileges
             + (if (r.kind == Table || r.kind == PartitionedTable) && name in sp.updateTables then {Update} else {})
          && forall reader :: reader in plan.readers ==> Select in Held(r.acl, To(reader)))
    && (forall name :: name in schema.relations && schema.relations[name].kind == Sequence
                       && Acts(s, edges, schema.relations[name].owner) ==>
          sp.sequencePrivileges <= Held(schema.relations[name].acl, To(plan.app)))
    && (forall name :: name in schema.routines && schema.routines[name].kind == Function
                       && Acts(s, edges, schema.routines[name].owner) ==>
          sp.functionPrivileges <= Held(schema.routines[name].acl, To(plan.app)))
  }

  lemma SelectableAsDeclared(s: Session, edges: Edges, plan: Plan, sp: SchemaPlan, before: Schema, after: Schema,
                             name: Name)
    requires TablesSettled(s, edges, plan, sp, before, after) && after == SchemaAfter(s, edges, plan, sp, before)
    requires name in after.relations && Selectable(after.relations[name].kind)
    requires Acts(s, edges, after.relations[name].owner)
    ensures AsDeclared(plan, sp, name, after.relations[name])
  {
    assert after.relations[name] == RelationAfter(s, edges, plan, sp, before.relations, name);
    assert TableLike(before.relations[name].kind);
  }

  lemma BlockLists(s: Session, edges: Edges, plan: Plan, sp: SchemaPlan, before: Schema)
    requires plan.app !in plan.readers
    ensures ListsInPlace(s, edges, plan, sp, SchemaAfter(s, edges, plan, sp, before))
  {
    var after := SchemaAfter(s, edges, plan, sp, before);
    TablesEndAsDeclared(s, edges, plan, sp, before, after);
    SchemaEndsUsable(s, edges, plan, sp, before, after);
    forall name | name in after.relations && Selectable(after.relations[name].kind)
      && Acts(s, edges, after.relations[name].owner)
      ensures AsDeclared(plan, sp, name, after.relations[name])
    {
      SelectableAsDeclared(s, edges, plan, sp, before, after, name);
    }
  }

  /** After a finished script whatever can be selected from carries exactly the declared privileges. */
  lemma FinishedMeansGranted(s: Session, plan: Plan, scan: Scan, c: Catalog, o: Outcome, i: nat)
    requires Enumerates(scan) && DistinctNames(plan.schemas) && i < |plan.schemas| && plan.app !in plan.readers
    requires Script(s, plan, scan, c) == Some(o)
    ensures var sp := plan.schemas[i];
      && sp.name in o.catalog.schemas
      && ListsInPlace(s, ScriptEdges(s, plan, scan, c)[i], plan, sp, o.catalog.schemas[sp.name])
  {
    var before := SchemaOrNew(s.admin, c.schemas, plan.schemas[i].name);
    BootstrapReaches(s, plan, scan, c, i, before);
    BlockLists(s, ScriptEdges(s, plan, scan, c)[i], plan, plan.schemas[i], before);
  }

  // ---- What the verification sees ----

  lemma GovernedAreManaged(r: Relation)
    ensures Governed(r) <==> Managed(r)
  {}

  lemma OwnedRelationsIff(plan: Plan, sp: SchemaPlan, c: Catalog)
    requires sp.name in c.schemas
    ensures OwnedRelations(plan, sp, c) <==>
      forall name :: name in c.schemas[sp.name].relations && Governed(c.schemas[sp.name].relations[name]) ==>
        ProperlyOwned(plan, sp, name, c.schemas[sp.name].relations[name].owner)
  {
    var relations := c.schemas[sp.name].relations;
    forall name | name in relations
      ensures Governed(relations[name]) <==> Managed(relations[name])
      ensures RuntimeOwned(sp, name) <==> RuntimeName(sp, name)
    {
      GovernedAreManaged(relations[name]);
      RuntimeNameIff(sp, name);
    }
  }

  /** The service verification passes exactly when every governed schema is in order. */
  lemma ServiceVerifiesIff(superusers: set<Role>, plan: Plan, c: Catalog)
    ensures ServiceVerifies(superusers, plan, c) <==>
      forall sp :: sp in plan.schemas ==> sp.name in c.schemas && ServiceSchemaInOrder(superusers, plan, sp, c)
  {
    forall sp | sp in plan.schemas && sp.name in c.schemas
      ensures OwnedRelations(plan, sp, c) <==> AllProperlyOwned(plan, sp, c.schemas[sp.name])
    {
      OwnedRelationsIff(plan, sp, c);
    }
  }

  ghost predicate AllProperlyOwned(plan: Plan, sp: SchemaPlan, schema: Schema) {
    forall name :: name in schema.relations && Governed(schema.relations[name]) ==>
      ProperlyOwned(plan, sp, name, schema.relations[name].owner)
  }

  /**
    The DDL role owns the schema, its objects are properly owned, new tables will let the app role insert, and the
    app role may create in it exactly if the contract says so.
   */
  ghost predicate ServiceSchemaInOrder(superusers: set<Role>, plan: Plan, sp: SchemaPlan, c: Catalog)
    requires sp.name in c.schemas
  {
    var schema := c.schemas[sp.name];
    && schema.owner == plan.ddl && AllProperlyOwned(plan, sp, schema)
    && (plan.ddl, OnTables) in schema.defaults && To(plan.app) in schema.defaults[(plan.ddl, OnTables)]
    && Insert in schema.defaults[(plan.ddl, OnTables)][To(plan.app)]
    && (HasPrivilege(superusers, c.edges, plan.app, schema.acl, Create) <==> sp.appCanCreate)
  }

  /**
    The shared verification passes exactly when the schema and its objects are the DDL role's and the writer can
    rewrite no ordinary or partitioned table but the declared ones.
   */
  lemma SharedVerifiesIff(superusers: set<Role>, plan: Plan, c: Catalog)
    ensures SharedVerifies(superusers, plan, c) <==>
      forall sp :: sp in plan.schemas ==> sp.name in c.schemas && SharedSchemaInOrder(superusers, plan, sp, c)
  {
    forall sp | sp in plan.schemas && sp.name in c.schemas
      ensures OwnedRelations(plan, sp, c) <==> AllProperlyOwned(plan, sp, c.schemas[sp.name])
      ensures AppendOnly(superusers, plan, sp, c) <==> NoneRewritable(superusers, plan, sp, c)
    {
      OwnedRelationsIff(plan, sp, c);
    }
  }

  ghost predicate NoneRewritable(superusers: set<Role>, plan: Plan, sp: SchemaPlan, c: Catalog)
    requires sp.name in c.schemas
  {
    var relations := c.schemas[sp.name].relations;
    forall name :: name in relations && name !in sp.updateTables
                   && (relations[name].kind == Table || relations[name].kind == PartitionedTable) ==>
      && !HasPrivilege(superusers, c.edges, plan.app, relations[name].acl, Update)
      && !HasPrivilege(superusers, c.edges, plan.app, relations[name].acl, Delete)
  }

  ghost predicate SharedSchemaInOrder(superusers: set<Role>, plan: Plan, sp: SchemaPlan, c: Catalog)
    requires sp.name in c.schemas
  {
    c.schemas[sp.name].owner == plan.ddl && AllProperlyOwned(plan, sp, c.schemas[sp.name])
    && NoneRewritable(superusers, plan, sp, c)
  }

  /** One object with any other owner, of whatever governed kind, and neither verification passes. */
  lemma DriftedOwnerSeen(superusers: set<Role>, plan: Plan, c: Catalog, sp: SchemaPlan, name: Name)
    requires sp in plan.schemas && sp.name in c.schemas && name in c.schemas[sp.name].relations
    requires Governed(c.schemas[sp.name].relations[name])
    requires !ProperlyOwned(plan, sp, name, c.schemas[sp.name].relations[name].owner)
    ensures !ServiceVerifies(superusers, plan, c) && !SharedVerifies(superusers, plan, c)
  {
    ServiceVerifiesIff(superusers, plan, c);
    SharedVerifiesIff(superusers, plan, c);
    assert !AllProperlyOwned(plan, sp, c.schemas[sp.name]);
  }

  // ---- The two shapes of contract, in literal privileges ----

  /** On everything of these kinds whose owner the admin acts for, the role holds these privileges. */
  ghost predicate HoldsByKind(s: Session, edges: Edges, role: Role, schema: Schema, tables: set<Privilege>,
                              updatable: set<Name>, sequences: set<Privilege>, functions: set<Privilege>) {
    && (forall name :: name in schema.relations && Selectable(schema.relations[name].kind)
                       && Acts(s, edges, schema.relations[name].owner) ==>
          var kind := schema.relations[name].kind;
          Held(schema.relations[name].acl, To(role))
            == tables + if (kind == Table || kind == PartitionedTable) && name in updatable then {Update} else {})
    && (forall name :: name in schema.relations && schema.relations[name].kind == Sequence
                       && Acts(s, edges, schema.relations[name].owner) ==>
          sequences <= Held(schema.relations[name].acl, To(role)))
    && (forall name :: name in schema.routines && schema.routines[name].kind == Function
                       && Acts(s, edges, schema.routines[name].owner) ==>
          functions <= Held(schema.routines[name].acl, To(role)))
  }

  lemma ListsMean(s: Session, edges: Edges, plan: Plan, sp: SchemaPlan, schema: Schema, updatable: set<Name>)
    requires ListsInPlace(s, edges, plan, sp, schema) && forall name :: name in updatable <==> name in sp.updateTables
    ensures HoldsByKind(s, edges, plan.app, schema, sp.tablePrivileges, updatable, sp.sequencePrivileges,
                        sp.functionPrivileges)
  {}

  /** A service: the privileges each schema declares on tables; sequences may be used and read, functions run. */
  lemma ServiceSchemaGrants(contract: ServiceDbContract, s: Session, scan: Scan, c: Catalog, o: Outcome, i: nat)
    requires contract in SERVICE_DB_CONTRACTS && Enumerates(scan) && i < |contract.schemas|
    requires Script(s, contract.Plan(), scan, c) == Some(o)
    ensures var schema := contract.schemas[i];
      && schema.name in o.catalog.schemas
      && HoldsByKind(s, ScriptEdges(s, contract.Plan(), scan, c)[i], contract.app, o.catalog.schemas[schema.name],
                     schema.appTablePrivileges, {}, {Usage, Select}, {Execute})
  {
    var plan, sp := contract.Plan(), contract.Plan().schemas[i];
    RegisteredShape(contract);
    FinishedMeansGranted(s, plan, scan, c, o, i);
    ListsMean(s, ScriptEdges(s, plan, scan, c)[i], plan, sp, o.catalog.schemas[sp.name], {});
  }

  /** The system of record: the writer may read and insert, and update the retention policies; the front may read. */
  lemma SharedSchemaGrants(plan: Plan, s: Session, scan: Scan, c: Catalog, o: Outcome)
    requires plan in SHARED_DB_CONTRACTS && Enumerates(scan) && Script(s, plan, scan, c) == Some(o)
    ensures "public" in o.catalog.schemas
    ensures var edges, schema := ScriptEdges(s, plan, scan, c)[0], o.catalog.schemas["public"];
      && HoldsByKind(s, edges, "taproot_system_record_writer", schema, {Select, Insert}, {"retention_policies"},
                     {Usage, Select, Update}, {})
      && ReadableBy(s, edges, "front_s_app", schema)
  {
    var sp := plan.schemas[0];
    SharedShape(plan);
    SharedLiteral(plan);
    FinishedMeansGranted(s, plan, scan, c, o, 0);
    ListsMean(s, ScriptEdges(s, plan, scan, c)[0], plan, sp, o.catalog.schemas[sp.name], {"retention_policies"});
    ReadersMay(s, ScriptEdges(s, plan, scan, c)[0], plan, sp, o.catalog.schemas[sp.name], "front_s_app");
  }

  lemma SharedLiteral(plan: Plan)
    requires plan in SHARED_DB_CONTRACTS
    ensures plan.app == "taproot_system_record_writer" && |plan.schemas| == 1 && plan.app !in plan.readers
    ensures "front_s_app" in plan.readers
    ensures plan.schemas[0].name == "public" && plan.schemas[0].updateTables == ["retention_policies"]
  {
    assert plan.readers == ["front_s_app"];
  }

  ghost predicate ReadableBy(s: Session, edges: Edges, role: Role, schema: Schema) {
    forall name :: name in schema.relations && Selectable(schema.relations[name].kind)
                   && Acts(s, edges, schema.relations[name].owner) ==>
      Select in Held(schema.relations[name].acl, To(role))
  }

  lemma ReadersMay(s: Session, edges: Edges, plan: Plan, sp: SchemaPlan, schema: Schema, reader: Role)
    requires ListsInPlace(s, edges, plan, sp, schema) && reader in plan.readers
    ensures ReadableBy(s, edges, reader, schema)
  {}

  // ---- Search paths and the app membership ----

  lemma PathsAtEnd(s: Session, plan: Plan, scan: Scan, c: Catalog)
    requires Enumerates(scan)
    ensures Bootstrapped(s, plan, scan, c).catalog.searchPath
      == match plan.searchPath
         case None => c.searchPath
         case Some(first) => c.searchPath[plan.ddl := [first, "public"]][plan.app := [first, "public"]]
  {
    var start := Opened(s, plan, c);
    EnsureRolesEdges(s, c, [plan.ddl, plan.app]);
    BlocksKeepRoles(s, plan, plan.schemas, scan, start);
    var o := SchemaBlocks(s, plan, plan.schemas, scan, start);
    var path := if plan.searchPath.Some? then [plan.searchPath.value, "public"] else [];
    var pathed :=
      if plan.searchPath.None? then o.catalog.searchPath else o.catalog.searchPath[plan.ddl := path][plan.app := path];
    EnsureRolesEdges(s, o.catalog.(edges := Joined(plan, o.catalog.edges), searchPath := pathed), plan.readers);
  }

  lemma JoinedAtEnd(s: Session, plan: Plan, scan: Scan, c: Catalog)
    requires Enumerates(scan) && s.admin != plan.ddl
    ensures (plan.ddl, plan.app) in Bootstrapped(s, plan, scan, c).catalog.edges
      <==> plan.appMembership || (plan.ddl, plan.app) in c.edges
  {
    if plan.appMembership {
      JoinedStays(s, plan, SchemaBlocks(s, plan, plan.schemas, scan, Opened(s, plan, c)));
    } else {
      MembershipsReturned(s, plan, scan, c);
      assert SameEdge(c.edges, Bootstrapped(s, plan, scan, c).catalog.edges, plan.ddl, plan.app);
    }
  }

  lemma JoinedStays(s: Session, plan: Plan, o: Outcome)
    requires s.admin != plan.ddl && plan.appMembership
    ensures (plan.ddl, plan.app) in Closed(s, plan, o).catalog.edges
  {
    var path := if plan.searchPath.Some? then [plan.searchPath.value, "public"] else [];
    var pathed :=
      if plan.searchPath.None? then o.catalog.searchPath else o.catalog.searchPath[plan.ddl := path][plan.app := path];
    var joined := Joined(plan, o.catalog.edges);
    var reading := o.catalog.(edges := joined, searchPath := pathed);
    EnsureRolesEdges(s, reading, plan.readers);
    assert SameEdge(joined, EnsureRoles(s, reading, plan.readers).edges, plan.ddl, plan.app);
  }

  /**
    A service that keeps its tables in one schema of its own finds them by name under either role, any other is left
    to its path; and the DDL role joins the app role for the service that makes tables at run time, and for no other.
   */
  lemma ServiceRoles(contract: ServiceDbContract, s: Session, scan: Scan, c: Catalog, o: Outcome)
    requires contract in SERVICE_DB_CONTRACTS && Enumerates(scan) && s.admin != contract.ddl
    requires Script(s, contract.Plan(), scan, c) == Some(o)
    ensures o.catalog.searchPath ==
      if contract.app == "prompt_s_app"
      then c.searchPath[contract.ddl := ["prompt_s", "public"]][contract.app := ["prompt_s", "public"]]
      else if contract.app == "guardrail_s_app"
      then c.searchPath[contract.ddl := ["guardrail_s", "public"]][contract.app := ["guardrail_s", "public"]]
      else c.searchPath
    ensures (contract.ddl, contract.app) in o.catalog.edges
      <==> contract.app == "retrieval_app" || (contract.ddl, contract.app) in c.edges
  {
    var plan := contract.Plan();
    PathsAtEnd(s, plan, scan, c);
    JoinedAtEnd(s, plan, scan, c);
    ServicePaths(contract);
    ServiceJoins(contract);
  }

  lemma ServicePaths(contract: ServiceDbContract)
    requires contract in SERVICE_DB_CONTRACTS
    ensures contract.Plan().searchPath ==
      if contract.app == "prompt_s_app" then Some("prompt_s")
      else if contract.app == "guardrail_s_app" then Some("guardrail_s")
      else None
  {}

  lemma ServiceJoins(contract: ServiceDbContract)
    requires contract in SERVICE_DB_CONTRACTS
    ensures contract.Plan().appMembership <==> contract.app == "retrieval_app"
  {
    if contract.app == "retrieval_app" {
      assert contract.schemas[0].appOwnedLike == [VECTOR_STORES];
    }
  }
}
