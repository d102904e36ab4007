/** A table that the service made itself: the first run may only be warned about it, the second writes its list. */
module DbRuntimeTables {
  import opened Common
  import opened DbCatalog
  import opened DbContract
  import opened DbContractProofs
  import opened DbContractTheorems
  import opened DbFinishing
  import opened DbContractSettling
  import opened DbSecondRun

  /** The admin's membership in the DDL role is as given; in the app role it has an admin option and no more. */
  function RuntimeEdges(s: Session, plan: Plan, ddl: Edge): Edges {
    map[(s.admin, plan.ddl) := ddl, (s.admin, plan.app) := Edge(true, false, false)]
  }

  /** The same, with the DDL role a member of the app role. */
  function JoinedEdges(s: Session, plan: Plan, ddl: Edge): Edges {
    RuntimeEdges(s, plan, ddl)[(plan.ddl, plan.app) := Edge(false, true, true)]
  }

  const SELECTABLE: Acl := map[Public := {Select}]

  function RuntimeSchema(plan: Plan, table: Name): Schema {
    Schema(plan.ddl, map[To(plan.ddl) := {Usage, Create}],
      map[table := Relation(Table, plan.app, SELECTABLE, None, false)], map[], map[])
  }

  /** PostgreSQL 16, an admin who is no superuser, and a contract that lets the app role own the one table. */
  predicate RuntimePlan(s: Session, plan: Plan, sp: SchemaPlan, table: Name) {
    && s.pg16 && s.superusers == {} && s.admin != plan.ddl && s.admin != plan.app && plan.ddl != plan.app
    && plan.schemas == [sp] && plan.readers == [] && plan.appMembership && plan.searchPath == None
    && RuntimeOwned(sp, table)
  }

  ghost predicate IsRuntime(s: Session, plan: Plan, c: Catalog, sp: SchemaPlan, table: Name) {
    && plan.ddl in c.roles && plan.app in c.roles
    && c.edges == RuntimeEdges(s, plan, Edge(true, true, true))
    && sp.name in c.schemas && c.schemas[sp.name] == RuntimeSchema(plan, table)
  }

  lemma RuntimeArranged(s: Session, plan: Plan, c: Catalog, sp: SchemaPlan, table: Name)
    requires RuntimePlan(s, plan, sp, table) && IsRuntime(s, plan, c, sp, table)
    ensures AllArranged(plan, c.schemas) && DistinctNames(plan.schemas)
  {
    assert Target(plan, sp, table) == plan.app;
    assert StrayRoutines(plan, c.schemas[sp.name]) == {};
  }

  /** Before the roles are joined the admin acts for the DDL role alone. */
  lemma RuntimeReaches(s: Session, plan: Plan, sp: SchemaPlan, table: Name, ddl: Edge, edges: Edges)
    requires RuntimePlan(s, plan, sp, table) && edges == RuntimeEdges(s, plan, ddl)
    ensures ddl.inherits ==> Acts(s, edges, plan.ddl)
    ensures ddl.sets ==> HasRole(s.superusers, edges, s.admin, plan.ddl, CanSet)
    ensures !Acts(s, edges, plan.app)
  {
    var usable := Links(edges, CanUse);
    if ddl.inherits {
      HasDirectly(s.superusers, edges, s.admin, plan.ddl, CanUse);
    }
    if ddl.sets {
      HasDirectly(s.superusers, edges, s.admin, plan.ddl, CanSet);
    }
    NoWayOut(usable, {s.admin, plan.ddl}, s.admin, plan.app, |usable|);
  }

  /** The admin may grant either role, and no circle is near, whether or not the roles are joined. */
  lemma RuntimeMayGrant(s: Session, plan: Plan, sp: SchemaPlan, table: Name, ddl: Edge, edges: Edges)
    requires RuntimePlan(s, plan, sp, table) && ddl.admin
    requires edges == RuntimeEdges(s, plan, ddl) || edges == JoinedEdges(s, plan, ddl)
    ensures MayTake(s, edges, plan.ddl) && CloseRuns(s, plan, edges)
  {
    var all := Links(edges, IsMember);
    NoWayOut(all, {plan.ddl, plan.app}, plan.ddl, s.admin, |all|);
    NoWayOut(all, {plan.app}, plan.app, plan.ddl, |all|);
    assert HasRole(s.superusers, edges, s.admin, s.admin, IsMember);
    assert (s.admin, plan.ddl) in edges && edges[(s.admin, plan.ddl)].admin;
    assert (s.admin, plan.app) in edges && edges[(s.admin, plan.app)].admin;
  }

  /** The first run gets to its end: PUBLIC's privilege is enough for a warning. */
  lemma RuntimeFirstRun(s: Session, plan: Plan, scan: Scan, c: Catalog, sp: SchemaPlan, table: Name)
    requires Enumerates(scan) && RuntimePlan(s, plan, sp, table) && IsRuntime(s, plan, c, sp, table)
    ensures Script(s, plan, scan, c) == Some(Bootstrapped(s, plan, scan, c))
    ensures Opened(s, plan, c).catalog.edges == c.edges
  {
    RuntimeArranged(s, plan, c, sp, table);
    RuntimeStarts(s, plan, c, sp, table);
    OpensAgain(s, plan, c);
    ArrangedFinishesIff(s, plan, scan, c);
  }

  lemma RuntimeStarts(s: Session, plan: Plan, c: Catalog, sp: SchemaPlan, table: Name)
    requires RuntimePlan(s, plan, sp, table) && IsRuntime(s, plan, c, sp, table)
    ensures RunsAgain(s, plan, c) && Retaken(s, plan, c.edges) == c.edges
  {
    RuntimeReaches(s, plan, sp, table, Edge(true, true, true), c.edges);
    RuntimeMayGrant(s, plan, sp, table, Edge(true, true, true), c.edges);
    RuntimeWarned(s, plan, sp, table, c.schemas[sp.name], c.edges);
  }

  lemma RuntimeWarned(s: Session, plan: Plan, sp: SchemaPlan, table: Name, schema: Schema, edges: Edges)
    requires schema == RuntimeSchema(plan, table)
    ensures GrantsAllowed(s, edges, sp, schema)
  {
    assert Public in SELECTABLE && GrantRuns(s, edges, plan.app, SELECTABLE);
  }

  /** It joins the roles, gives the DDL membership back, and leaves the table's list alone. */
  lemma RuntimeOnce(s: Session, plan: Plan, scan: Scan, c: Catalog, sp: SchemaPlan, table: Name, once: Catalog)
    requires Enumerates(scan) && RuntimePlan(s, plan, sp, table) && IsRuntime(s, plan, c, sp, table)
    requires once == Bootstrapped(s, plan, scan, c).catalog
    ensures once.edges == JoinedEdges(s, plan, Edge(true, false, false))
    ensures sp.name in once.schemas && table in once.schemas[sp.name].relations
    ensures once.schemas[sp.name].relations[table] == Relation(Table, plan.app, SELECTABLE, None, false)
  {
    var start := Opened(s, plan, c);
    RuntimeArranged(s, plan, c, sp, table);
    RuntimeFirstRun(s, plan, scan, c, sp, table);
    OpenedEdges(s, plan, c);
    QuietBlocks(s, plan, plan.schemas, scan, start);
    RuntimeCloses(s, plan, sp, table, SchemaBlocks(s, plan, plan.schemas, scan, start));
    QuietGrants(s, plan, scan, c, 0);
    BootstrapReaches(s, plan, scan, c, 0, c.schemas[sp.name]);
    RuntimeSpared(s, plan, sp, table, c.schemas[sp.name], c.edges);
  }

  lemma RuntimeCloses(s: Session, plan: Plan, sp: SchemaPlan, table: Name, o: Outcome)
    requires RuntimePlan(s, plan, sp, table) && o.catalog.edges == RuntimeEdges(s, plan, Edge(true, true, true))
    ensures Closed(s, plan, o).catalog.edges == JoinedEdges(s, plan, Edge(true, false, false))
  {}

  lemma RuntimeSpared(s: Session, plan: Plan, sp: SchemaPlan, table: Name, schema: Schema, edges: Edges)
    requires RuntimePlan(s, plan, sp, table) && schema == RuntimeSchema(plan, table)
    requires edges == RuntimeEdges(s, plan, Edge(true, true, true))
    ensures var after := SchemaAfter(s, edges, plan, sp, schema).relations;
      table in after && after[table] == schema.relations[table]
  {
    RuntimeReaches(s, plan, sp, table, Edge(true, true, true), edges);
    assert OwnerAfter(plan, sp, schema.relations, table) == plan.app;
  }

  /** In the second run the admin takes the DDL role, and with it acts for the app role. */
  lemma RuntimeRetaken(s: Session, plan: Plan, sp: SchemaPlan, table: Name, edges: Edges)
    requires RuntimePlan(s, plan, sp, table) && edges == JoinedEdges(s, plan, Edge(true, false, false))
    ensures Retaken(s, plan, edges) == JoinedEdges(s, plan, Edge(true, true, true))
    ensures Acts(s, Retaken(s, plan, edges), plan.ddl) && Acts(s, Retaken(s, plan, edges), plan.app)
  {
    var usable, taken := Links(edges, CanUse), JoinedEdges(s, plan, Edge(true, true, true));
    NoWayOut(usable, {s.admin}, s.admin, plan.ddl, |usable|);
    assert Retaken(s, plan, edges) == taken;
    HasDirectly(s.superusers, taken, s.admin, plan.ddl, CanUse);
    TwoSteps(Links(taken, CanUse), s.admin, plan.ddl, plan.app);
  }

  lemma RuntimeRunsAgain(s: Session, plan: Plan, scan: Scan, c: Catalog, sp: SchemaPlan, table: Name, once: Catalog)
    requires Enumerates(scan) && RuntimePlan(s, plan, sp, table) && IsRuntime(s, plan, c, sp, table)
    requires once == Bootstrapped(s, plan, scan, c).catalog
    ensures RunsAgain(s, plan, once) && !AllDeclared(s, plan, once)
  {
    RuntimeOnce(s, plan, scan, c, sp, table, once);
    RuntimeRetaken(s, plan, sp, table, once.edges);
    RuntimeAllows(s, plan, scan, c, sp, table, once, Retaken(s, plan, once.edges));
    JoinedRunsAgain(s, plan, sp, table, once);
    JoinedUndeclared(s, plan, sp, table, once);
  }

  lemma JoinedRunsAgain(s: Session, plan: Plan, sp: SchemaPlan, table: Name, once: Catalog)
    requires RuntimePlan(s, plan, sp, table) && once.edges == JoinedEdges(s, plan, Edge(true, false, false))
    requires sp.name in once.schemas && GrantsAllowed(s, Retaken(s, plan, once.edges), sp, once.schemas[sp.name])
    ensures RunsAgain(s, plan, once)
  {
    RuntimeRetaken(s, plan, sp, table, once.edges);
    RuntimeMayGrant(s, plan, sp, table, Edge(true, false, false), once.edges);
    RuntimeMayGrant(s, plan, sp, table, Edge(true, true, true), Retaken(s, plan, once.edges));
  }

  lemma JoinedUndeclared(s: Session, plan: Plan, sp: SchemaPlan, table: Name, once: Catalog)
    requires plan.schemas == [sp] && sp.name in once.schemas && table in once.schemas[sp.name].relations
    requires once.schemas[sp.name].relations[table] == Relation(Table, plan.app, SELECTABLE, None, false)
    requires Acts(s, Retaken(s, plan, once.edges), plan.app)
    ensures !AllDeclared(s, plan, once)
  {
    assert To(plan.app) !in SELECTABLE && !ListDeclared(plan, sp, table, Table, SELECTABLE);
    assert !DeclaredAt(s, plan, sp, once) && sp in plan.schemas;
  }

  lemma RuntimeAllows(s: Session, plan: Plan, scan: Scan, c: Catalog, sp: SchemaPlan, table: Name, once: Catalog,
                      edges: Edges)
    requires Enumerates(scan) && RuntimePlan(s, plan, sp, table) && IsRuntime(s, plan, c, sp, table)
    requires once == Bootstrapped(s, plan, scan, c).catalog && Acts(s, edges, plan.app)
    ensures sp.name in once.schemas && GrantsAllowed(s, edges, sp, once.schemas[sp.name])
  {
    RuntimeArranged(s, plan, c, sp, table);
    BootstrapReaches(s, plan, scan, c, 0, c.schemas[sp.name]);
    RuntimeSchemaAllows(s, ScriptEdges(s, plan, scan, c)[0], plan, sp, table, c.schemas[sp.name], edges);
  }

  lemma RuntimeSchemaAllows(s: Session, first: Edges, plan: Plan, sp: SchemaPlan, table: Name, schema: Schema,
                            edges: Edges)
    requires RuntimePlan(s, plan, sp, table) && schema == RuntimeSchema(plan, table) && Acts(s, edges, plan.app)
    ensures GrantsAllowed(s, edges, sp, SchemaAfter(s, first, plan, sp, schema))
  {
    assert OwnerAfter(plan, sp, schema.relations, table) == plan.app;
  }

  /** Both runs get to their ends, and the second changes what the first could not. */
  lemma RuntimeTableNotIdle(s: Session, plan: Plan, scan: Scan, c: Catalog, sp: SchemaPlan, table: Name, once: Outcome)
    requires Enumerates(scan) && RuntimePlan(s, plan, sp, table) && IsRuntime(s, plan, c, sp, table)
    requires once == Bootstrapped(s, plan, scan, c)
    ensures Script(s, plan, scan, c) == Some(once)
    ensures var again := Script(s, plan, scan, once.catalog); again.Some? && again.value.catalog != once.catalog
  {
    RuntimeArranged(s, plan, c, sp, table);
    RuntimeFirstRun(s, plan, scan, c, sp, table);
    RuntimeRunsAgain(s, plan, scan, c, sp, table, once.catalog);
    SecondRunFinishesIff(s, plan, scan, c, once);
    SecondRunChangesNothing(s, plan, scan, c, once, Bootstrapped(s, plan, scan, once.catalog));
  }
}
