/** Running the bootstrap a second time. */
module DbContractSettling {
  import opened Common
  import opened DbCatalog
  import opened DbContract
  import opened DbContractProofs
  import opened DbContractTheorems
  import opened DbFinishing

  // ---- A schema with nothing left to do ----

  ghost predicate NothingToMove(plan: Plan, sp: SchemaPlan, schema: Schema) {
    && (forall name :: name in schema.relations && Managed(schema.relations[name]) ==>
          schema.relations[name].owner == Target(plan, sp, name))
    && StrayRoutines(plan, schema) == {}
  }

  lemma RoutinesStay(s: Session, edges: Edges, plan: Plan, sp: SchemaPlan, x: Schema, name: Name)
    requires NoStrayProcedure(plan, x) && name in x.routines
    ensures var after := RoutineAfter(s, edges, plan, sp, x.routines[name]); after.owner == plan.ddl || after.extension
  {
    assert !StrayProcedure(plan, x, name);
  }

  lemma RelationsStay(s: Session, edges: Edges, plan: Plan, sp: SchemaPlan, relations: map<Name, Relation>, name: Name)
    requires name in relations
    ensures var after := RelationAfter(s, edges, plan, sp, relations, name);
      Managed(after) ==> after.owner == Target(plan, sp, name)
  {}

  lemma AfterNothingToMove(s: Session, edges: Edges, plan: Plan, sp: SchemaPlan, x: Schema)
    requires NoStrayProcedure(plan, x)
    ensures NothingToMove(plan, sp, SchemaAfter(s, edges, plan, sp, x))
  {
    var relations, routines :=
      RelationsAfter(s, edges, plan, sp, x.relations), RoutinesAfter(s, edges, plan, sp, x.routines);
    forall name | name in relations
      ensures Managed(relations[name]) ==> relations[name].owner == Target(plan, sp, name)
    {
      RelationsStay(s, edges, plan, sp, x.relations, name);
    }
    forall name | name in routines
      ensures routines[name].owner == plan.ddl || routines[name].extension
    {
      RoutinesStay(s, edges, plan, sp, x, name);
    }
  }

  lemma {:induction false} IdleRelationLoop(s: Session, plan: Plan, sp: SchemaPlan, acl: Acl,
                                            relations: map<Name, Relation>, names: seq<Name>, p: Pass)
    requires forall name :: name in names ==> name in relations && relations[name].owner == Target(plan, sp, name)
    ensures RelationLoop(s, plan, sp, relations, names, p) == p
    ensures RelationLoopRuns(s, plan, sp, acl, relations, names, p)
    decreases |names|
  {
    if names != [] {
      var n := |names| - 1;
      IdleRelationLoop(s, plan, sp, acl, relations, names[..n], p);
      assert names[n] in names;
    }
  }

  lemma SomeMember(names: seq<Name>)
    ensures names != [] ==> exists name :: name in names
  {
    if names != [] {
      assert names[0] in names;
    }
  }

  /** With nothing to move, the reassignment runs and takes nothing. */
  lemma IdleTakes(s: Session, plan: Plan, sp: SchemaPlan, scan: Scan, schema: Schema, edges: Edges)
    requires Enumerates(scan) && NothingToMove(plan, sp, schema)
    ensures ReassignTakes(s, plan, sp, scan, schema, edges) == Pass(edges, [])
    ensures EdgesAtGrants(s, plan, sp, scan, schema, edges) == edges
    ensures ReassignRuns(s, plan, sp, scan, schema, edges)
  {
    var managed, stray := scan(ManagedNames(schema)), scan(StrayRoutines(plan, schema));
    IdleRelationLoop(s, plan, sp, SchemaAcl(plan, sp, schema.owner, schema.acl), schema.relations, managed,
      Pass(edges, []));
    SomeMember(stray);
  }

  lemma IdleBlock(s: Session, plan: Plan, sp: SchemaPlan, scan: Scan, o: Outcome, schema: Schema)
    requires Enumerates(scan) && sp.name in o.catalog.schemas && schema == o.catalog.schemas[sp.name]
    requires NothingToMove(plan, sp, schema) && SchemaAfter(s, o.catalog.edges, plan, sp, schema) == schema
    ensures SchemaBlock(s, plan, sp, scan, o) == o
  {
    IdleTakes(s, plan, sp, scan, schema, o.catalog.edges);
    assert o.catalog.schemas[sp.name := schema] == o.catalog.schemas;
    assert o.everGranted + [] == o.everGranted;
  }

  ghost predicate SchemaSettled(s: Session, edges: Edges, plan: Plan, sp: SchemaPlan, schemas: map<Name, Schema>) {
    && sp.name in schemas && NothingToMove(plan, sp, schemas[sp.name])
    && SchemaAfter(s, edges, plan, sp, schemas[sp.name]) == schemas[sp.name]
  }

  lemma {:induction false} IdleBlocks(s: Session, plan: Plan, schemas: seq<SchemaPlan>, scan: Scan, o: Outcome)
    requires Enumerates(scan) && forall sp ::
      sp in schemas ==> SchemaSettled(s, o.catalog.edges, plan, sp, o.catalog.schemas)
    ensures SchemaBlocks(s, plan, schemas, scan, o) == o
    decreases |schemas|
  {
    if schemas != [] {
      var n := |schemas| - 1;
      IdleBlocks(s, plan, schemas[..n], scan, o);
      assert schemas[n] in schemas;
      IdleBlock(s, plan, schemas[n], scan, o, o.catalog.schemas[schemas[n].name]);
    }
  }

  lemma {:induction false} IdleEnsure(s: Session, c: Catalog, roles: seq<Role>)
    requires Names(roles) <= c.roles
    ensures EnsureRoles(s, c, roles) == c
    decreases |roles|
  {
    if roles != [] {
      assert roles[|roles| - 1] in Names(roles);
      assert Names(roles[..|roles| - 1]) <= Names(roles);
      IdleEnsure(s, c, roles[..|roles| - 1]);
    }
  }

  lemma DatabaseAclSettles(plan: Plan, acl: Acl)
    requires plan.ddl != plan.app
    ensures DatabaseAcl(plan, DatabaseAcl(plan, acl)) == DatabaseAcl(plan, acl)
  {
    var once := DatabaseAcl(plan, acl);
    DatabaseAclHolds(plan, acl);
    DatabaseAclHolds(plan, once);
    forall g
      ensures Held(DatabaseAcl(plan, once), g) == Held(once, g)
    {
      assert Held(once, g) == DatabaseEntry(plan, g, Held(acl, g));
    }
    SameAcl(DatabaseAcl(plan, once), once);
  }

  function DatabaseEntry(plan: Plan, g: Grantee, held: set<Privilege>): set<Privilege> {
    (if g == To(plan.ddl) then held + {Connect, Create}
     else if g == To(plan.app) then held + {Connect} - {Create}
     else held) + ReaderShare(plan.readers, g, {Connect})
  }

  lemma DatabaseAclHolds(plan: Plan, acl: Acl)
    requires plan.ddl != plan.app
    ensures forall g :: Held(DatabaseAcl(plan, acl), g) == DatabaseEntry(plan, g, Held(acl, g))
    ensures forall g ::
      g in DatabaseAcl(plan, acl) <==>
      g in acl || g == To(plan.ddl) || g == To(plan.app) || (g.To? && g.role in plan.readers)
  {
    var owned := Grant(acl, To(plan.ddl), {Connect, Create});
    var connected := Revoke(Grant(owned, To(plan.app), {Connect}), To(plan.app), {Create});
    GrantEachHolds(connected, plan.readers, {Connect});
  }

  // ---- What a run leaves ----

  function Paths(plan: Plan, paths: map<Role, seq<Name>>): map<Role, seq<Name>> {
    if plan.searchPath.None? then paths
    else paths[plan.ddl := [plan.searchPath.value, "public"]][plan.app := [plan.searchPath.value, "public"]]
  }

  ghost predicate MembershipsSettled(s: Session, plan: Plan, edges: Edges) {
    && Clean(edges, s.admin, plan.ddl) && Clean(edges, s.admin, plan.app)
    && (!s.pg16 ==> (s.admin, plan.ddl) !in edges && (s.admin, plan.app) !in edges)
    && (plan.appMembership ==> (plan.ddl, plan.app) in edges)
  }

  ghost predicate ClusterSettled(s: Session, plan: Plan, c: Catalog) {
    && plan.ddl in c.roles && plan.app in c.roles && Names(plan.readers) <= c.roles
    && DatabaseAcl(plan, c.databaseAcl) == c.databaseAcl
    && Paths(plan, c.searchPath) == c.searchPath
    && MembershipsSettled(s, plan, c.edges)
  }

  /** The memberships once a further run has made sure of the DDL role. */
  function Retaken(s: Session, plan: Plan, edges: Edges): Edges {
    TakeDdl(s, Pass(edges, []), plan.ddl).edges
  }

  ghost predicate Settled(s: Session, plan: Plan, c: Catalog) {
    && ClusterSettled(s, plan, c)
    && forall sp :: sp in plan.schemas ==> SchemaSettled(s, Retaken(s, plan, c.edges), plan, sp, c.schemas)
  }

  lemma ClosedSettles(s: Session, plan: Plan, o: Outcome)
    requires s.admin != plan.ddl && plan.ddl != plan.app
    ensures var after := Closed(s, plan, o).catalog;
      && MembershipsSettled(s, plan, after.edges) && after.searchPath == Paths(plan, o.catalog.searchPath)
      && after.roles == o.catalog.roles + Names(plan.readers)
  {
    var joined := Joined(plan, o.catalog.edges);
    var reading := o.catalog.(edges := joined, searchPath := Paths(plan, o.catalog.searchPath));
    EnsureRolesEdges(s, reading, plan.readers);
    var read := EnsureRoles(s, reading, plan.readers);
    assert SameEdge(joined, read.edges, plan.ddl, plan.app);
  }

  /** Roles, database privileges, search paths and memberships after a run. */
  lemma ClusterSettles(s: Session, plan: Plan, scan: Scan, c: Catalog, once: Catalog)
    requires Enumerates(scan) && s.admin != plan.ddl && plan.ddl != plan.app
    requires once == Bootstrapped(s, plan, scan, c).catalog
    ensures ClusterSettled(s, plan, once)
  {
    var start := Opened(s, plan, c);
    var blocks := SchemaBlocks(s, plan, plan.schemas, scan, start);
    OpenedEdges(s, plan, c);
    EnsureRolesEdges(s, c, [plan.ddl, plan.app]);
    BlocksKeepRoles(s, plan, plan.schemas, scan, start);
    ClosedSettles(s, plan, blocks);
    ClosedSchemas(s, plan, blocks);
    DatabaseAclSettles(plan, c.databaseAcl);
  }

  // ---- The admin reaches no further in a second run ----

  lemma BlockReachesLess(s: Session, plan: Plan, sp: SchemaPlan, scan: Scan, o: Outcome)
    requires Enumerates(scan)
    ensures Links(SchemaBlock(s, plan, sp, scan, o).catalog.edges, CanUse) <= Links(o.catalog.edges, CanUse)
  {
    var after := SchemaBlock(s, plan, sp, scan, o);
    var granted := after.everGranted[|o.everGranted|..];
    BlockReturns(s, plan, sp, scan, o);
    forall pair | pair in Links(after.catalog.edges, CanUse)
      ensures pair in Links(o.catalog.edges, CanUse)
    {
      if pair.0 != s.admin || pair.1 !in granted {
        assert SameEdge(o.catalog.edges, after.catalog.edges, pair.0, pair.1);
      }
    }
  }

  /** The privileges that the admin has at the end of the blocks it had at the grants of each. */
  lemma {:induction false} LaterReachesLess(s: Session, plan: Plan, blocks: seq<SchemaPlan>, scan: Scan, o: Outcome,
                                            i: nat)
    requires Enumerates(scan) && i < |blocks|
    ensures Links(SchemaBlocks(s, plan, blocks, scan, o).catalog.edges, CanUse)
      <= Links(GrantEdges(s, plan, blocks, scan, o)[i], CanUse)
    decreases |blocks|
  {
    var n := |blocks| - 1;
    if i < n {
      LaterReachesLess(s, plan, blocks[..n], scan, o, i);
      BlockReachesLess(s, plan, blocks[n], scan, SchemaBlocks(s, plan, blocks[..n], scan, o));
    }
  }

  lemma ClosedReachesLess(s: Session, plan: Plan, o: Outcome)
    requires s.admin != plan.ddl
    ensures Links(Closed(s, plan, o).catalog.edges, CanUse)
      <= Links(o.catalog.edges, CanUse) + if plan.appMembership then {(plan.ddl, plan.app)} else {}
  {
    var after := Closed(s, plan, o);
    ClosedEdges(s, plan, o);
    forall pair | pair in Links(after.catalog.edges, CanUse) && !(plan.appMembership && pair == (plan.ddl, plan.app))
      ensures pair in Links(o.catalog.edges, CanUse)
    {
      if pair.0 == s.admin && pair.1 in {plan.ddl, plan.app} + (after.catalog.roles - o.catalog.roles) {
        ClosedLeavesUnusable(s, plan, o, pair.1);
      } else {
        assert SameEdge(o.catalog.edges, after.catalog.edges, pair.0, pair.1);
      }
    }
  }

  /** A membership of the admin that the closing touches gains no ability by it. */
  lemma ClosedLeavesUnusable(s: Session, plan: Plan, o: Outcome, role: Role)
    requires s.admin != plan.ddl
    ensures (s.admin, role) in Links(Closed(s, plan, o).catalog.edges, CanUse)
      ==> (s.admin, role) in Links(o.catalog.edges, CanUse)
  {
    var joined := Joined(plan, o.catalog.edges);
    var reading := o.catalog.(edges := joined, searchPath := Paths(plan, o.catalog.searchPath));
    EnsureRolesGain(s, reading, plan.readers, role);
  }

  lemma {:induction false} EnsureRolesGain(s: Session, c: Catalog, roles: seq<Role>, role: Role)
    ensures (s.admin, role) in Links(EnsureRoles(s, c, roles).edges, CanUse)
      ==> (s.admin, role) in Links(c.edges, CanUse)
    decreases |roles|
  {
    if roles != [] {
      EnsureRolesGain(s, c, roles[..|roles| - 1], role);
    }
  }

  /** Links to roles that can be reached anyway lead nowhere new. */
  lemma {:induction false} ReachRedirected(links: set<(Role, Role)>, more: set<(Role, Role)>, start: Role, from: Role,
                                           to: Role, n: nat, known: nat) returns (m: nat)
    requires Reach(more, from, to, n) && Reach(links, start, from, known)
    requires forall pair :: pair in more && pair !in links ==> Reach(links, start, pair.1, |links|)
    ensures Reach(links, start, to, m)
    decreases n
  {
    m := known;
    if from != to {
      var pair :| pair in more && pair.0 == from && Reach(more, pair.1, to, n - 1);
      if pair in links {
        assert Reach(links, pair.1, pair.1, 0);
        assert Reach(links, from, pair.1, 1);
        ReachThrough(links, start, from, pair.1, known, 1);
        m := ReachRedirected(links, more, start, pair.1, to, n - 1, known + 1);
      } else {
        m := ReachRedirected(links, more, start, pair.1, to, n - 1, |links|);
      }
    }
  }

  /** Memberships that only lead to roles the admin acts for anyway let it act for no other. */
  lemma ActsRedirected(s: Session, first: Edges, second: Edges, role: Role)
    requires forall pair :: pair in Links(second, CanUse) && pair !in Links(first, CanUse) ==> Acts(s, first, pair.1)
    requires Acts(s, second, role)
    ensures Acts(s, first, role)
  {
    if s.admin !in s.superusers {
      var links, more := Links(first, CanUse), Links(second, CanUse);
      var m := ReachRedirected(links, more, s.admin, s.admin, role, |more|, 0);
      ReachBound(links, s.admin, role, m);
    }
  }

  /** From the grants of block i of one run to those of the next: what new memberships there can be. */
  lemma SecondLinks(s: Session, plan: Plan, scan: Scan, c: Catalog, once: Catalog, i: nat)
    requires Enumerates(scan) && s.admin != plan.ddl && i < |plan.schemas|
    requires once == Bootstrapped(s, plan, scan, c).catalog
    ensures forall pair :: pair in Links(Retaken(s, plan, once.edges), CanUse)
                           && pair !in Links(ScriptEdges(s, plan, scan, c)[i], CanUse) ==>
      pair == (s.admin, plan.ddl) || (plan.appMembership && pair == (plan.ddl, plan.app))
  {
    var start := Opened(s, plan, c);
    LaterReachesLess(s, plan, plan.schemas, scan, start, i);
    ClosedReachesLess(s, plan, SchemaBlocks(s, plan, plan.schemas, scan, start));
    RetakenLinks(s, plan, once.edges);
  }

  lemma RetakenLinks(s: Session, plan: Plan, edges: Edges)
    ensures Links(Retaken(s, plan, edges), CanUse) <= Links(edges, CanUse) + {(s.admin, plan.ddl)}
  {}

  /** The admin acts for the app role, too, if the contract makes the DDL role its member. */
  predicate ActsForApp(s: Session, plan: Plan, edges: Edges) {
    plan.appMembership ==> Acts(s, edges, plan.app)
  }

  ghost predicate ActsThroughout(s: Session, plan: Plan, scan: Scan, c: Catalog)
    requires Enumerates(scan)
  {
    forall i :: 0 <= i < |plan.schemas| ==> ActsForApp(s, plan, ScriptEdges(s, plan, scan, c)[i])
  }

  /** At its grants, a second run acts for no role that the first did not act for. */
  lemma SecondReachesLess(s: Session, plan: Plan, scan: Scan, c: Catalog, once: Catalog, i: nat, role: Role)
    requires Enumerates(scan) && s.admin != plan.ddl && i < |plan.schemas|
    requires once == Bootstrapped(s, plan, scan, c).catalog
    requires var first := ScriptEdges(s, plan, scan, c)[i]; Acts(s, first, plan.ddl) && ActsForApp(s, plan, first)
    requires Acts(s, Retaken(s, plan, once.edges), role)
    ensures Acts(s, ScriptEdges(s, plan, scan, c)[i], role)
  {
    SecondLinks(s, plan, scan, c, once, i);
    ActsRedirected(s, ScriptEdges(s, plan, scan, c)[i], Retaken(s, plan, once.edges), role);
  }

  // ---- What a finished run leaves of the schemas ----

  /** After a finished run a governed schema has nothing to move, and is the DDL role's. */
  ghost predicate Arranged(plan: Plan, sp: SchemaPlan, schemas: map<Name, Schema>) {
    sp.name in schemas && NothingToMove(plan, sp, schemas[sp.name]) && schemas[sp.name].owner == plan.ddl
  }

  ghost predicate AllArranged(plan: Plan, schemas: map<Name, Schema>) {
    forall sp :: sp in plan.schemas ==> Arranged(plan, sp, schemas)
  }

  /** Every list that a further run may write is already as declared. */
  ghost predicate AllDeclared(s: Session, plan: Plan, c: Catalog) {
    forall sp :: sp in plan.schemas ==> DeclaredAt(s, plan, sp, c)
  }

  predicate DeclaredAt(s: Session, plan: Plan, sp: SchemaPlan, c: Catalog) {
    sp.name in c.schemas && ListsDeclared(s, Retaken(s, plan, c.edges), plan, sp, c.schemas[sp.name])
  }

  lemma RunArranges(s: Session, plan: Plan, scan: Scan, c: Catalog, once: Outcome)
    requires Enumerates(scan) && DistinctNames(plan.schemas) && Script(s, plan, scan, c) == Some(once)
    ensures AllArranged(plan, once.catalog.schemas)
  {
    FinishedMeans(s, plan, scan, c);
    BlocksArrange(s, plan, scan, c);
  }

  lemma BlocksArrange(s: Session, plan: Plan, scan: Scan, c: Catalog)
    requires Enumerates(scan) && DistinctNames(plan.schemas) && NoStrayProcedures(s, plan, c)
    ensures AllArranged(plan, Bootstrapped(s, plan, scan, c).catalog.schemas)
  {
    var schemas := Bootstrapped(s, plan, scan, c).catalog.schemas;
    forall i | 0 <= i < |plan.schemas|
      ensures Arranged(plan, plan.schemas[i], schemas)
    {
      assert plan.schemas[i] in plan.schemas;
      BlockArranges(s, plan, scan, c, i);
    }
  }

  lemma BlockArranges(s: Session, plan: Plan, scan: Scan, c: Catalog, i: nat)
    requires Enumerates(scan) && DistinctNames(plan.schemas) && i < |plan.schemas|
    requires NoStrayProcedure(plan, SchemaOrNew(s.admin, c.schemas, plan.schemas[i].name))
    ensures Arranged(plan, plan.schemas[i], Bootstrapped(s, plan, scan, c).catalog.schemas)
  {
    var before := SchemaOrNew(s.admin, c.schemas, plan.schemas[i].name);
    BootstrapReaches(s, plan, scan, c, i, before);
    AfterNothingToMove(s, ScriptEdges(s, plan, scan, c)[i], plan, plan.schemas[i], before);
  }

  /** A governed schema comes through a second block unchanged exactly when its lists are declared. */
  lemma SchemaRunSettles(s: Session, plan: Plan, scan: Scan, c: Catalog, once: Outcome, i: nat)
    requires Enumerates(scan) && DistinctNames(plan.schemas) && s.admin != plan.ddl && i < |plan.schemas|
    requires once == Bootstrapped(s, plan, scan, c)
    ensures var sp, second := plan.schemas[i], Retaken(s, plan, once.catalog.edges);
      && sp.name in once.catalog.schemas
      && var x := once.catalog.schemas[sp.name];
      SchemaAfter(s, second, plan, sp, x) == x <==> ListsDeclared(s, second, plan, sp, x)
  {
    var sp := plan.schemas[i];
    var before := SchemaOrNew(s.admin, c.schemas, sp.name);
    BootstrapReaches(s, plan, scan, c, i, before);
    SchemaSettlesIff(s, ScriptEdges(s, plan, scan, c)[i], Retaken(s, plan, once.catalog.edges), plan, sp, before);
  }

  /** Nothing is left to declare, unless the run itself gave the admin a way to act for the app role. */
  lemma RunDeclares(s: Session, plan: Plan, scan: Scan, c: Catalog, once: Outcome)
    requires Enumerates(scan) && DistinctNames(plan.schemas) && s.admin != plan.ddl
    requires Script(s, plan, scan, c) == Some(once) && ActsThroughout(s, plan, scan, c)
    ensures AllDeclared(s, plan, once.catalog)
  {
    FinishedMeans(s, plan, scan, c);
    forall i | 0 <= i < |plan.schemas|
      ensures DeclaredAt(s, plan, plan.schemas[i], once.catalog)
    {
      SchemaRunDeclares(s, plan, scan, c, once.catalog, i);
    }
  }

  lemma SchemaRunDeclares(s: Session, plan: Plan, scan: Scan, c: Catalog, once: Catalog, i: nat)
    requires Enumerates(scan) && DistinctNames(plan.schemas) && s.admin != plan.ddl && i < |plan.schemas|
    requires once == Bootstrapped(s, plan, scan, c).catalog
    requires var first := ScriptEdges(s, plan, scan, c)[i]; Acts(s, first, plan.ddl) && ActsForApp(s, plan, first)
    ensures DeclaredAt(s, plan, plan.schemas[i], once)
  {
    var sp := plan.schemas[i];
    var before := SchemaOrNew(s.admin, c.schemas, sp.name);
    var first, second := ScriptEdges(s, plan, scan, c)[i], Retaken(s, plan, once.edges);
    forall role | Acts(s, second, role)
      ensures Acts(s, first, role)
    {
      SecondReachesLess(s, plan, scan, c, once, i, role);
    }
    BootstrapReaches(s, plan, scan, c, i, before);
    SchemaSettles(s, first, second, plan, sp, before);
  }

  // ---- A second run ----

  /** The admin can already act as the DDL role, so that the script takes no membership in it. */
  predicate ActsAsDdl(s: Session, plan: Plan, edges: Edges) {
    HasRole(s.superusers, edges, s.admin, plan.ddl, CanUse) && HasRole(s.superusers, edges, s.admin, plan.ddl, CanSet)
  }

  /** Taking the DDL membership and giving it back leaves a trace only where there was no membership at all. */
  lemma TakeAndReturn(s: Session, plan: Plan, edges: Edges)
    requires s.admin != plan.ddl && plan.ddl != plan.app && MembershipsSettled(s, plan, edges)
    ensures var taken := TakeDdl(s, Pass(edges, []), plan.ddl).edges;
      var returned := Withdrawn(s.pg16, Withdrawn(s.pg16, taken, s.admin, plan.app), s.admin, plan.ddl);
      returned == edges <==> !s.pg16 || (s.admin, plan.ddl) in edges || ActsAsDdl(s, plan, edges)
  {
    var taken := TakeDdl(s, Pass(edges, []), plan.ddl).edges;
    assert (s.admin, plan.app) in taken <==> (s.admin, plan.app) in edges;
    assert Withdrawn(s.pg16, taken, s.admin, plan.app) == taken;
    if taken != edges {
      GrantAndWithdraw(s.pg16, edges, s.admin, plan.ddl);
    } else {
      assert Withdrawn(s.pg16, edges, s.admin, plan.ddl) == edges;
    }
  }

  /**
    On a clean membership, or none, granting and withdrawing returns to the start unless PostgreSQL 16 keeps
    the new one.
   */
  lemma GrantAndWithdraw(pg16: bool, edges: Edges, member: Role, role: Role)
    requires if pg16 then Clean(edges, member, role) else (member, role) !in edges
    ensures Withdrawn(pg16, Granted(edges, member, role), member, role) == edges <==> !pg16 || (member, role) in edges
  {
    var after := Withdrawn(pg16, Granted(edges, member, role), member, role);
    if !pg16 || (member, role) in edges {
      assert after == edges;
    } else {
      assert (member, role) in after;
    }
  }

  lemma SettledRunsIdle(s: Session, plan: Plan, scan: Scan, c: Catalog)
    requires Enumerates(scan) && s.admin != plan.ddl && plan.ddl != plan.app && Settled(s, plan, c)
    ensures Bootstrapped(s, plan, scan, c).catalog == c.(edges :=
      Withdrawn(s.pg16, Withdrawn(s.pg16, Retaken(s, plan, c.edges), s.admin, plan.app), s.admin, plan.ddl))
  {
    assert Names([plan.ddl, plan.app]) == {plan.ddl, plan.app};
    IdleEnsure(s, c, [plan.ddl, plan.app]);
    var start := Opened(s, plan, c);
    var taken := Retaken(s, plan, c.edges);
    assert start.catalog == c.(edges := taken);
    IdleBlocks(s, plan, plan.schemas, scan, start);
    assert plan.appMembership ==> GrantPlain(taken, plan.ddl, plan.app) == taken;
    IdleEnsure(s, start.catalog, plan.readers);
  }

  // ---- The blocks of a second run ----

  /** Blocks with nothing to move leave the memberships alone. */
  lemma {:induction false} QuietBlocks(s: Session, plan: Plan, blocks: seq<SchemaPlan>, scan: Scan, o: Outcome)
    requires Enumerates(scan) && DistinctNames(blocks)
    requires forall sp :: sp in blocks ==> Arranged(plan, sp, o.catalog.schemas)
    ensures SchemaBlocks(s, plan, blocks, scan, o).catalog.edges == o.catalog.edges
    decreases |blocks|
  {
    if blocks != [] {
      var n := |blocks| - 1;
      QuietBlocks(s, plan, blocks[..n], scan, o);
      MetAsFound(s, plan, blocks, scan, o, n);
      assert Arranged(plan, blocks[n], o.catalog.schemas);
      IdleTakes(s, plan, blocks[n], scan, o.catalog.schemas[blocks[n].name], o.catalog.edges);
    }
  }

  lemma QuietGrants(s: Session, plan: Plan, scan: Scan, c: Catalog, i: nat)
    requires Enumerates(scan) && DistinctNames(plan.schemas) && i < |plan.schemas|
    requires AllArranged(plan, c.schemas)
    ensures ScriptEdges(s, plan, scan, c)[i] == Opened(s, plan, c).catalog.edges
  {
    var start := Opened(s, plan, c);
    OpenedEdges(s, plan, c);
    var before := SchemaBlocks(s, plan, plan.schemas[..i], scan, start);
    QuietBlocks(s, plan, plan.schemas[..i], scan, start);
    MetAsFound(s, plan, plan.schemas, scan, start, i);
    GrantsAt(s, plan, plan.schemas, scan, start, i, before);
    assert Arranged(plan, plan.schemas[i], c.schemas);
    IdleTakes(s, plan, plan.schemas[i], scan, c.schemas[plan.schemas[i].name], start.catalog.edges);
  }

  /** With every role there, opening only makes sure of the DDL membership. */
  lemma OpensAgain(s: Session, plan: Plan, c: Catalog)
    requires plan.ddl in c.roles && plan.app in c.roles
    ensures EnsureRoles(s, c, [plan.ddl, plan.app]) == c
    ensures Opened(s, plan, c).catalog.edges == Retaken(s, plan, c.edges)
  {
    assert Names([plan.ddl, plan.app]) == {plan.ddl, plan.app};
    IdleEnsure(s, c, [plan.ddl, plan.app]);
  }

  /** If a second run changes no schema, every list it may write was declared. */
  lemma IdleMeansDeclared(s: Session, plan: Plan, scan: Scan, c: Catalog, once: Outcome)
    requires Enumerates(scan) && DistinctNames(plan.schemas) && s.admin != plan.ddl && plan.ddl != plan.app
    requires Script(s, plan, scan, c) == Some(once)
    requires Bootstrapped(s, plan, scan, once.catalog).catalog.schemas == once.catalog.schemas
    ensures AllDeclared(s, plan, once.catalog)
  {
    RunArranges(s, plan, scan, c, once);
    ClusterSettles(s, plan, scan, c, once.catalog);
    IdleBlocksDeclare(s, plan, scan, c, once);
  }

  lemma IdleBlocksDeclare(s: Session, plan: Plan, scan: Scan, c: Catalog, once: Outcome)
    requires Enumerates(scan) && DistinctNames(plan.schemas) && s.admin != plan.ddl
    requires once == Bootstrapped(s, plan, scan, c) && AllArranged(plan, once.catalog.schemas)
    requires plan.ddl in once.catalog.roles && plan.app in once.catalog.roles
    requires Bootstrapped(s, plan, scan, once.catalog).catalog.schemas == once.catalog.schemas
    ensures AllDeclared(s, plan, once.catalog)
  {
    forall i | 0 <= i < |plan.schemas|
      ensures DeclaredAt(s, plan, plan.schemas[i], once.catalog)
    {
      IdleBlockDeclares(s, plan, scan, c, once, i);
    }
  }

  lemma IdleBlockDeclares(s: Session, plan: Plan, scan: Scan, c: Catalog, once: Outcome, i: nat)
    requires Enumerates(scan) && DistinctNames(plan.schemas) && s.admin != plan.ddl && i < |plan.schemas|
    requires once == Bootstrapped(s, plan, scan, c) && AllArranged(plan, once.catalog.schemas)
    requires plan.ddl in once.catalog.roles && plan.app in once.catalog.roles
    requires Bootstrapped(s, plan, scan, once.catalog).catalog.schemas == once.catalog.schemas
    ensures DeclaredAt(s, plan, plan.schemas[i], once.catalog)
  {
    SchemaRunSettles(s, plan, scan, c, once, i);
    OpensAgain(s, plan, once.catalog);
    QuietGrants(s, plan, scan, once.catalog, i);
    BootstrapReaches(s, plan, scan, once.catalog, i, once.catalog.schemas[plan.schemas[i].name]);
  }

  lemma DeclaredSettles(s: Session, plan: Plan, scan: Scan, c: Catalog, once: Outcome)
    requires Enumerates(scan) && DistinctNames(plan.schemas) && s.admin != plan.ddl && plan.ddl != plan.app
    requires Script(s, plan, scan, c) == Some(once) && AllDeclared(s, plan, once.catalog)
    ensures Settled(s, plan, once.catalog)
  {
    RunArranges(s, plan, scan, c, once);
    ClusterSettles(s, plan, scan, c, once.catalog);
    DeclaredBlocksSettle(s, plan, scan, c, once);
  }

  lemma DeclaredBlocksSettle(s: Session, plan: Plan, scan: Scan, c: Catalog, once: Outcome)
    requires Enumerates(scan) && DistinctNames(plan.schemas) && s.admin != plan.ddl
    requires once == Bootstrapped(s, plan, scan, c)
    requires AllArranged(plan, once.catalog.schemas) && AllDeclared(s, plan, once.catalog)
    ensures forall sp :: sp in plan.schemas ==>
      SchemaSettled(s, Retaken(s, plan, once.catalog.edges), plan, sp, once.catalog.schemas)
  {
    var second := Retaken(s, plan, once.catalog.edges);
    forall i | 0 <= i < |plan.schemas|
      ensures SchemaSettled(s, second, plan, plan.schemas[i], once.catalog.schemas)
    {
      DeclaredBlockSettles(s, plan, scan, c, once, i);
    }
  }

  lemma DeclaredBlockSettles(s: Session, plan: Plan, scan: Scan, c: Catalog, once: Outcome, i: nat)
    requires Enumerates(scan) && DistinctNames(plan.schemas) && s.admin != plan.ddl && i < |plan.schemas|
    requires once == Bootstrapped(s, plan, scan, c)
    requires AllArranged(plan, once.catalog.schemas) && AllDeclared(s, plan, once.catalog)
    ensures SchemaSettled(s, Retaken(s, plan, once.catalog.edges), plan, plan.schemas[i], once.catalog.schemas)
  {
    assert Arranged(plan, plan.schemas[i], once.catalog.schemas) && DeclaredAt(s, plan, plan.schemas[i], once.catalog);
    SchemaRunSettles(s, plan, scan, c, once, i);
  }

  /** A further run can leave the memberships as they are: it needs none, or finds one to change, or takes it away. */
  predicate LeavesNoTrace(s: Session, plan: Plan, edges: Edges) {
    !s.pg16 || (s.admin, plan.ddl) in edges || ActsAsDdl(s, plan, edges)
  }

  /**
    A second run that gets to its end changes nothing, if and only if it leaves no membership behind and every list
    it may write is as declared already.
   */
  lemma SecondRunChangesNothing(s: Session, plan: Plan, scan: Scan, c: Catalog, once: Outcome, twice: Outcome)
    requires Enumerates(scan) && DistinctNames(plan.schemas) && s.admin != plan.ddl && plan.ddl != plan.app
    requires Script(s, plan, scan, c) == Some(once) && Script(s, plan, scan, once.catalog) == Some(twice)
    ensures twice.catalog == once.catalog
      <==> LeavesNoTrace(s, plan, once.catalog.edges) && AllDeclared(s, plan, once.catalog)
  {
    if AllDeclared(s, plan, once.catalog) {
      DeclaredSettles(s, plan, scan, c, once);
      SettledRunsIdle(s, plan, scan, once.catalog);
      TakeAndReturn(s, plan, once.catalog.edges);
    } else if twice.catalog == once.catalog {
      IdleMeansDeclared(s, plan, scan, c, once);
    }
  }

  // ---- When a second run gets to its end ----

  /** Whatever the grants cover, the admin acts for its owner or holds something on it. */
  predicate GrantsAllowed(s: Session, edges: Edges, sp: SchemaPlan, schema: Schema) {
    && (forall name :: name in schema.relations && Covered(schema.relations[name].kind) ==>
          GrantRuns(s, edges, schema.relations[name].owner, schema.relations[name].acl))
    && (forall name :: name in schema.routines && FunctionsGranted(sp, schema.routines[name]) ==>
          GrantRuns(s, edges, schema.routines[name].owner, schema.routines[name].acl))
  }

  /**
    Read off the catalog between the runs: the DDL membership is there or can be taken, the admin acts for the DDL
    role and may grant on the rest, and the closing statements are allowed.
   */
  ghost predicate RunsAgain(s: Session, plan: Plan, c: Catalog) {
    var edges := Retaken(s, plan, c.edges);
    && (TakeDdl(s, Pass(c.edges, []), plan.ddl) == Pass(c.edges, []) || MayTake(s, c.edges, plan.ddl))
    && (forall sp :: sp in plan.schemas ==>
          sp.name in c.schemas && Acts(s, edges, plan.ddl) && GrantsAllowed(s, edges, sp, c.schemas[sp.name]))
    && CloseRuns(s, plan, edges)
  }

  lemma NothingReassigned(plan: Plan, sp: SchemaPlan, schema: Schema)
    requires NothingToMove(plan, sp, schema)
    ensures forall name :: name in schema.relations ==>
      Reassigned(plan, sp, schema.relations, name) == schema.relations[name]
    ensures forall name :: name in schema.routines ==>
      RoutineReassigned(plan, schema.routines[name]) == schema.routines[name]
  {
    forall name | name in schema.relations
      ensures Reassigned(plan, sp, schema.relations, name) == schema.relations[name]
    {
      assert OwnerAfter(plan, sp, schema.relations, name) == schema.relations[name].owner;
    }
    forall name | name in schema.routines
      ensures RoutineReassigned(plan, schema.routines[name]) == schema.routines[name]
    {
      assert name !in StrayRoutines(plan, schema);
    }
  }

  lemma QuietBlockRuns(s: Session, plan: Plan, sp: SchemaPlan, scan: Scan, schema: Schema, edges: Edges)
    requires Enumerates(scan) && NothingToMove(plan, sp, schema) && schema.owner == plan.ddl
    ensures BlockRuns(s, plan, sp, scan, schema, edges)
      <==> Acts(s, edges, plan.ddl) && GrantsAllowed(s, edges, sp, schema)
  {
    IdleTakes(s, plan, sp, scan, schema, edges);
    NothingReassigned(plan, sp, schema);
  }

  lemma QuietRunsAt(s: Session, plan: Plan, scan: Scan, c: Catalog, start: Outcome, i: nat)
    requires Enumerates(scan) && DistinctNames(plan.schemas) && AllArranged(plan, c.schemas)
    requires start.catalog.schemas == c.schemas && i < |plan.schemas|
    ensures plan.schemas[i].name in c.schemas
    ensures RunsAt(s, plan, plan.schemas, scan, start, i)
      <==> Acts(s, start.catalog.edges, plan.ddl)
           && GrantsAllowed(s, start.catalog.edges, plan.schemas[i], c.schemas[plan.schemas[i].name])
  {
    assert Arranged(plan, plan.schemas[i], c.schemas);
    QuietBlocks(s, plan, plan.schemas[..i], scan, start);
    QuietBlockRuns(s, plan, plan.schemas[i], scan, c.schemas[plan.schemas[i].name], start.catalog.edges);
  }

  lemma QuietBlocksRun(s: Session, plan: Plan, scan: Scan, c: Catalog, start: Outcome)
    requires Enumerates(scan) && DistinctNames(plan.schemas) && AllArranged(plan, c.schemas)
    requires start.catalog.schemas == c.schemas
    ensures BlocksRun(s, plan, plan.schemas, scan, start) <==>
      forall sp :: sp in plan.schemas ==>
        Acts(s, start.catalog.edges, plan.ddl) && GrantsAllowed(s, start.catalog.edges, sp, c.schemas[sp.name])
  {
    BlocksRunEach(s, plan, plan.schemas, scan, start);
    forall i | 0 <= i < |plan.schemas|
      ensures plan.schemas[i] in plan.schemas
      ensures RunsAt(s, plan, plan.schemas, scan, start, i)
        <==> Acts(s, start.catalog.edges, plan.ddl)
             && GrantsAllowed(s, start.catalog.edges, plan.schemas[i], c.schemas[plan.schemas[i].name])
    {
      QuietRunsAt(s, plan, scan, c, start, i);
    }
    if forall sp :: sp in plan.schemas ==>
      Acts(s, start.catalog.edges, plan.ddl) && GrantsAllowed(s, start.catalog.edges, sp, c.schemas[sp.name])
    {
      assert FirstRun(s, plan, plan.schemas, scan, start, |plan.schemas|);
    }
  }

  /** After a finished run a second one gets to its end if and only if the catalog in between allows it. */
  lemma SecondRunFinishesIff(s: Session, plan: Plan, scan: Scan, c: Catalog, once: Outcome)
    requires Enumerates(scan) && DistinctNames(plan.schemas) && s.admin != plan.ddl && plan.ddl != plan.app
    requires Script(s, plan, scan, c) == Some(once)
    ensures Script(s, plan, scan, once.catalog) == Some(Bootstrapped(s, plan, scan, once.catalog))
      <==> RunsAgain(s, plan, once.catalog)
  {
    RunArranges(s, plan, scan, c, once);
    ClusterSettles(s, plan, scan, c, once.catalog);
    ArrangedFinishesIff(s, plan, scan, once.catalog);
  }

  lemma ArrangedFinishesIff(s: Session, plan: Plan, scan: Scan, c: Catalog)
    requires Enumerates(scan) && DistinctNames(plan.schemas) && AllArranged(plan, c.schemas)
    requires plan.ddl in c.roles && plan.app in c.roles
    ensures Finishes(s, plan, scan, c) <==> RunsAgain(s, plan, c)
  {
    var start := Opened(s, plan, c);
    OpensAgain(s, plan, c);
    OpenedEdges(s, plan, c);
    QuietBlocksRun(s, plan, scan, c, start);
    QuietBlocks(s, plan, plan.schemas, scan, start);
    forall sp | sp in plan.schemas
      ensures sp.name in c.schemas
    {
      assert Arranged(plan, sp, c.schemas);
    }
  }

  // ---- Superusers ----

  /** Memberships with the DDL role's in the app role added close no circle that was not there. */
  lemma JoiningStaysOpen(edges: Edges, plan: Plan, after: Edges)
    requires Links(after, IsMember) <= Links(edges, IsMember) + {(plan.ddl, plan.app)}
    requires Circular(after, plan.ddl, plan.app)
    ensures Circular(edges, plan.ddl, plan.app)
  {
    var before, links := Links(edges, IsMember), Links(after, IsMember);
    ReachUntil(links, before, plan.app, plan.ddl, |links|);
    ReachBound(before, plan.app, plan.ddl, |links|);
  }

  lemma SuperuserLinks(s: Session, plan: Plan, scan: Scan, c: Catalog)
    requires Enumerates(scan) && s.admin in s.superusers
    ensures Links(Bootstrapped(s, plan, scan, c).catalog.edges, IsMember)
      <= Links(c.edges, IsMember) + {(plan.ddl, plan.app)}
  {
    var start := Opened(s, plan, c);
    var o := SchemaBlocks(s, plan, plan.schemas, scan, start);
    SuperuserOpens(s, plan, c);
    SuperuserKeepsEdges(s, plan, plan.schemas, scan, start);
    var reading := o.catalog.(edges := Joined(plan, o.catalog.edges), searchPath := Paths(plan, o.catalog.searchPath));
    SuperuserEnsures(s, reading, plan.readers);
    WithdrawnLinks(s, reading.edges, plan.app);
    WithdrawnLinks(s, Withdrawn(s.pg16, reading.edges, s.admin, plan.app), plan.ddl);
    assert Links(reading.edges, IsMember) <= Links(c.edges, IsMember) + {(plan.ddl, plan.app)};
  }

  lemma WithdrawnLinks(s: Session, edges: Edges, role: Role)
    ensures Links(Withdrawn(s.pg16, edges, s.admin, role), IsMember) <= Links(edges, IsMember)
  {}

  /** A superuser's second run always gets to its end, and changes nothing at all. */
  lemma SuperuserSecondRun(s: Session, plan: Plan, scan: Scan, c: Catalog, once: Outcome)
    requires Enumerates(scan) && DistinctNames(plan.schemas) && s.admin != plan.ddl && plan.ddl != plan.app
    requires s.admin in s.superusers && Script(s, plan, scan, c) == Some(once)
    ensures var again := Script(s, plan, scan, once.catalog); again.Some? && again.value.catalog == once.catalog
  {
    SuperuserFinishesIff(s, plan, scan, c);
    if JoinIsCircular(plan, once.catalog.edges) {
      SuperuserLinks(s, plan, scan, c);
      JoiningStaysOpen(c.edges, plan, once.catalog.edges);
    }
    NoStrayLeft(s, plan, scan, c, once);
    SuperuserFinishesIff(s, plan, scan, once.catalog);
    RunDeclares(s, plan, scan, c, once);
    SecondRunChangesNothing(s, plan, scan, c, once, Bootstrapped(s, plan, scan, once.catalog));
  }

  lemma NoStrayLeft(s: Session, plan: Plan, scan: Scan, c: Catalog, once: Outcome)
    requires Enumerates(scan) && DistinctNames(plan.schemas) && Script(s, plan, scan, c) == Some(once)
    ensures NoStrayProcedures(s, plan, once.catalog)
  {
    RunArranges(s, plan, scan, c, once);
    forall sp | sp in plan.schemas
      ensures NoStrayProcedure(plan, SchemaOrNew(s.admin, once.catalog.schemas, sp.name))
    {
      assert Arranged(plan, sp, once.catalog.schemas);
    }
  }
}
