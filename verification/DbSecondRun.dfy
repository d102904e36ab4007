/** When a second run is idle, read off the catalog that the first one started from (PostgreSQL 16 and later). */
module DbSecondRun {
  import opened Common
  import opened DbCatalog
  import opened DbContract
  import opened DbContractProofs
  import opened DbContractTheorems
  import opened DbFinishing
  import opened DbContractSettling

  // ---- Which memberships a run adds ----

  /** The edges after some grants to the admin are those before and the ones granted. */
  ghost predicate Tallied(s: Session, before: Edges, p: Pass) {
    forall role :: (s.admin, role) in p.edges <==> (s.admin, role) in before || role in p.granted
  }

  lemma {:induction false} RelationsTallied(s: Session, plan: Plan, sp: SchemaPlan, relations: map<Name, Relation>,
                                            names: seq<Name>, before: Edges)
    requires forall name :: name in names ==> name in relations
    ensures Tallied(s, before, RelationLoop(s, plan, sp, relations, names, Pass(before, [])))
    decreases |names|
  {
    if names != [] {
      RelationsTallied(s, plan, sp, relations, names[..|names| - 1], before);
    }
  }

  lemma {:induction false} RoutinesTallied(s: Session, routines: map<Name, Routine>, names: seq<Name>, before: Edges,
                                           p: Pass)
    requires forall name :: name in names ==> name in routines
    requires Tallied(s, before, p)
    ensures Tallied(s, before, RoutineLoop(s, routines, names, p))
    decreases |names|
  {
    if names != [] {
      RoutinesTallied(s, routines, names[..|names| - 1], before, p);
    }
  }

  lemma {:induction false} GiveBackKeepsKeys(s: Session, edges: Edges, granted: seq<Role>)
    requires s.pg16
    ensures GiveBack(s, edges, granted).Keys == edges.Keys
    decreases |granted|
  {
    if granted != [] {
      GiveBackKeepsKeys(s, edges, granted[..|granted| - 1]);
    }
  }

  /** The admin's memberships at the end of the blocks: those at their start, and those granted meanwhile. */
  ghost predicate Accounted(s: Session, before: Outcome, after: Outcome) {
    && before.everGranted <= after.everGranted
    && forall role :: (s.admin, role) in after.catalog.edges
         <==> (s.admin, role) in before.catalog.edges || role in after.everGranted[|before.everGranted|..]
  }

  lemma BlockAccounted(s: Session, plan: Plan, sp: SchemaPlan, scan: Scan, o: Outcome)
    requires Enumerates(scan) && s.pg16
    ensures Accounted(s, o, SchemaBlock(s, plan, sp, scan, o))
  {
    var schema := SchemaOrNew(s.admin, o.catalog.schemas, sp.name);
    var managed := scan(ManagedNames(schema));
    RelationsTallied(s, plan, sp, schema.relations, managed, o.catalog.edges);
    RoutinesTallied(s, schema.routines, scan(StrayRoutines(plan, schema)), o.catalog.edges,
      RelationLoop(s, plan, sp, schema.relations, managed, Pass(o.catalog.edges, [])));
    var takes := ReassignTakes(s, plan, sp, scan, schema, o.catalog.edges);
    GiveBackKeepsKeys(s, takes.edges, takes.granted);
    assert SchemaBlock(s, plan, sp, scan, o).everGranted[|o.everGranted|..] == takes.granted;
  }

  lemma AccountedTwice(s: Session, a: Outcome, b: Outcome, c: Outcome)
    requires Accounted(s, a, b) && Accounted(s, b, c)
    ensures Accounted(s, a, c)
  {
    var ab, bc, ac :=
      b.everGranted[|a.everGranted|..], c.everGranted[|b.everGranted|..], c.everGranted[|a.everGranted|..];
    assert ac == ab + bc;
  }

  lemma {:induction false} BlocksAccounted(s: Session, plan: Plan, blocks: seq<SchemaPlan>, scan: Scan, o: Outcome)
    requires Enumerates(scan) && s.pg16
    ensures Accounted(s, o, SchemaBlocks(s, plan, blocks, scan, o))
    decreases |blocks|
  {
    if blocks != [] {
      var n := |blocks| - 1;
      var before := SchemaBlocks(s, plan, blocks[..n], scan, o);
      BlocksAccounted(s, plan, blocks[..n], scan, o);
      BlockAccounted(s, plan, blocks[n], scan, before);
      AccountedTwice(s, o, before, SchemaBlock(s, plan, blocks[n], scan, before));
    }
  }

  lemma {:induction false} EnsureRolesAdds(s: Session, c: Catalog, roles: seq<Role>, role: Role)
    requires s.pg16 && s.admin !in s.superusers
    ensures (s.admin, role) in EnsureRoles(s, c, roles).edges
      <==> (s.admin, role) in c.edges || (role in roles && role !in c.roles)
    ensures role in EnsureRoles(s, c, roles).roles <==> role in c.roles || role in roles
    ensures role in roles && role !in c.roles ==> Clean(EnsureRoles(s, c, roles).edges, s.admin, role)
    ensures !(role in roles && role !in c.roles) ==> SameEdge(c.edges, EnsureRoles(s, c, roles).edges, s.admin, role)
    decreases |roles|
  {
    if roles != [] {
      var n := |roles| - 1;
      EnsureRolesAdds(s, c, roles[..n], role);
      assert roles == roles[..n] + [roles[n]];
    }
  }

  lemma OpenedAdds(s: Session, plan: Plan, c: Catalog)
    requires s.pg16 && s.admin !in s.superusers && s.admin != plan.ddl
    ensures var o := Opened(s, plan, c);
      && ((s.admin, plan.ddl) in o.catalog.edges
          <==> (s.admin, plan.ddl) in c.edges || plan.ddl !in c.roles || plan.ddl in o.everGranted)
      && plan.ddl in o.catalog.roles
  {
    EnsureRolesAdds(s, c, [plan.ddl, plan.app], plan.ddl);
  }

  lemma ClosedAdds(s: Session, plan: Plan, o: Outcome)
    requires s.pg16 && s.admin !in s.superusers && s.admin != plan.ddl && plan.ddl in o.catalog.roles
    ensures (s.admin, plan.ddl) in Closed(s, plan, o).catalog.edges <==> (s.admin, plan.ddl) in o.catalog.edges
  {
    var joined := Joined(plan, o.catalog.edges);
    var reading := o.catalog.(edges := joined, searchPath := Paths(plan, o.catalog.searchPath));
    EnsureRolesAdds(s, reading, plan.readers, plan.ddl);
  }

  /** The run leaves the admin some membership in the DDL role in these cases and no others. */
  predicate LeavesMembership(s: Session, plan: Plan, c: Catalog, granted: seq<Role>) {
    (s.admin, plan.ddl) in c.edges || plan.ddl !in c.roles || plan.ddl in granted
  }

  lemma MembershipLeft(s: Session, plan: Plan, scan: Scan, c: Catalog, once: Outcome)
    requires Enumerates(scan) && s.pg16 && s.admin !in s.superusers && s.admin != plan.ddl
    requires once == Bootstrapped(s, plan, scan, c)
    ensures (s.admin, plan.ddl) in once.catalog.edges <==> LeavesMembership(s, plan, c, once.everGranted)
  {
    var start := Opened(s, plan, c);
    var blocks := SchemaBlocks(s, plan, plan.schemas, scan, start);
    OpenedAdds(s, plan, c);
    BlocksAccounted(s, plan, plan.schemas, scan, start);
    BlocksKeepRoles(s, plan, plan.schemas, scan, start);
    ClosedAdds(s, plan, blocks);
    AccountedFor(s, plan, start, blocks);
  }

  lemma AccountedFor(s: Session, plan: Plan, before: Outcome, after: Outcome)
    requires Accounted(s, before, after)
    ensures (s.admin, plan.ddl) in after.catalog.edges
      <==> (s.admin, plan.ddl) in before.catalog.edges || plan.ddl in after.everGranted[|before.everGranted|..]
    ensures plan.ddl in after.everGranted
      <==> plan.ddl in before.everGranted || plan.ddl in after.everGranted[|before.everGranted|..]
  {
    assert after.everGranted == before.everGranted + after.everGranted[|before.everGranted|..];
  }

  // ---- Which abilities a run takes away ----

  /**
    What is left of the starting memberships with an ability: the admin's own in the app role, in the roles
    that the run granted it and in the roles that it created are gone.
   */
  function Left(s: Session, plan: Plan, c: Catalog, once: Outcome, ability: Ability): set<(Role, Role)> {
    set pair | pair in Links(c.edges, ability)
      && (pair.0 != s.admin || pair.1 !in Names(once.everGranted) + {plan.app} + (once.catalog.roles - c.roles))
  }

  lemma {:induction false} ReachIgnoresExits(links: set<(Role, Role)>, more: set<(Role, Role)>, from: Role, to: Role,
                                             n: nat)
    requires forall pair :: pair in more && pair !in links ==> pair.0 == to
    requires Reach(more, from, to, n)
    ensures Reach(links, from, to, n)
    decreases n
  {
    if from != to {
      var pair :| pair in more && pair.0 == from && Reach(more, pair.1, to, n - 1);
      ReachIgnoresExits(links, more, pair.1, to, n - 1);
    }
  }

  /** A new role's membership carries no ability, unless it was granted on the way. */
  lemma NewRolesUnusable(s: Session, plan: Plan, scan: Scan, c: Catalog, once: Outcome, role: Role)
    requires Enumerates(scan) && s.pg16 && s.admin !in s.superusers && s.admin != plan.ddl
    requires once == Bootstrapped(s, plan, scan, c) && role in once.catalog.roles && role !in c.roles
    ensures Clean(once.catalog.edges, s.admin, role)
  {
    MembershipsReturned(s, plan, scan, c);
    if role != plan.ddl && role != plan.app {
      var start := Opened(s, plan, c);
      var blocks := SchemaBlocks(s, plan, plan.schemas, scan, start);
      OpenedEdges(s, plan, c);
      BlocksKeepRoles(s, plan, plan.schemas, scan, start);
      var joined := Joined(plan, blocks.catalog.edges);
      var reading := blocks.catalog.(edges := joined, searchPath := Paths(plan, blocks.catalog.searchPath));
      EnsureRolesAdds(s, reading, plan.readers, role);
      var read := EnsureRoles(s, reading, plan.readers);
      WithdrawnKeeps(s, read.edges, plan.app);
      WithdrawnKeeps(s, Withdrawn(s.pg16, read.edges, s.admin, plan.app), plan.ddl);
    }
  }

  /** After the run, the abilities are those left, and the DDL role's new membership in the app role. */
  lemma LinksLeft(s: Session, plan: Plan, scan: Scan, c: Catalog, once: Outcome, ability: Ability)
    requires Enumerates(scan) && s.pg16 && s.admin !in s.superusers && s.admin != plan.ddl && ability != IsMember
    requires once == Bootstrapped(s, plan, scan, c) && (s.admin, plan.ddl) !in once.catalog.edges
    requires (s.admin, plan.ddl) !in c.edges
    ensures Left(s, plan, c, once, ability) <= Links(once.catalog.edges, ability) + {(plan.ddl, plan.app)}
    ensures Links(once.catalog.edges, ability) <= Left(s, plan, c, once, ability) + {(plan.ddl, plan.app)}
  {
    forall pair: (Role, Role) | pair != (plan.ddl, plan.app)
      ensures pair in Links(once.catalog.edges, ability) <==> pair in Left(s, plan, c, once, ability)
    {
      LinkLeft(s, plan, scan, c, once, ability, pair);
    }
  }

  lemma LinkLeft(s: Session, plan: Plan, scan: Scan, c: Catalog, once: Outcome, ability: Ability, pair: (Role, Role))
    requires Enumerates(scan) && s.pg16 && s.admin !in s.superusers && s.admin != plan.ddl && ability != IsMember
    requires once == Bootstrapped(s, plan, scan, c) && (s.admin, plan.ddl) !in once.catalog.edges
    requires (s.admin, plan.ddl) !in c.edges && pair != (plan.ddl, plan.app)
    ensures pair in Links(once.catalog.edges, ability) <==> pair in Left(s, plan, c, once, ability)
  {
    MembershipsReturned(s, plan, scan, c);
    var gone := Names(once.everGranted) + {plan.app} + (once.catalog.roles - c.roles);
    if pair.0 == s.admin && pair.1 in gone {
      if pair.1 in once.catalog.roles - c.roles {
        NewRolesUnusable(s, plan, scan, c, once, pair.1);
      }
      assert Clean(once.catalog.edges, s.admin, pair.1);
    } else if pair != (s.admin, plan.ddl) {
      assert SameEdge(c.edges, once.catalog.edges, pair.0, pair.1);
    }
  }

  lemma StillReaches(s: Session, plan: Plan, scan: Scan, c: Catalog, once: Outcome, ability: Ability)
    requires Enumerates(scan) && s.pg16 && s.admin !in s.superusers && s.admin != plan.ddl && ability != IsMember
    requires once == Bootstrapped(s, plan, scan, c) && (s.admin, plan.ddl) !in once.catalog.edges
    requires (s.admin, plan.ddl) !in c.edges
    ensures var left := Left(s, plan, c, once, ability);
      HasRole(s.superusers, once.catalog.edges, s.admin, plan.ddl, ability) <==> Reach(left, s.admin, plan.ddl, |left|)
  {
    var left, links := Left(s, plan, c, once, ability), Links(once.catalog.edges, ability);
    LinksLeft(s, plan, scan, c, once, ability);
    if Reach(links, s.admin, plan.ddl, |links|) {
      ReachIgnoresExits(left, links, s.admin, plan.ddl, |links|);
      ReachBound(left, s.admin, plan.ddl, |links|);
    }
    if Reach(left, s.admin, plan.ddl, |left|) {
      ReachIgnoresExits(links, left, s.admin, plan.ddl, |left|);
      ReachBound(links, s.admin, plan.ddl, |left|);
    }
  }

  // ---- Main results ----

  /**
    On PostgreSQL 16, for an admin who is no superuser: a second run that gets to its end is idle if and only if
    every list it may write is declared, and either the first run left the admin a membership in the DDL role, or
    what is left of the starting memberships still lets it act as that role.
   */
  lemma SecondRunIdleIff(s: Session, plan: Plan, scan: Scan, c: Catalog, once: Outcome, twice: Outcome)
    requires Enumerates(scan) && DistinctNames(plan.schemas) && s.admin != plan.ddl && plan.ddl != plan.app
    requires s.pg16 && s.admin !in s.superusers
    requires Script(s, plan, scan, c) == Some(once) && Script(s, plan, scan, once.catalog) == Some(twice)
    ensures twice.catalog == once.catalog <==>
      AllDeclared(s, plan, once.catalog)
      && (LeavesMembership(s, plan, c, once.everGranted) || StillActs(s, plan, c, once))
  {
    SecondRunChangesNothing(s, plan, scan, c, once, twice);
    WithoutTrace(s, plan, scan, c, once);
  }

  lemma WithoutTrace(s: Session, plan: Plan, scan: Scan, c: Catalog, once: Outcome)
    requires Enumerates(scan) && s.admin != plan.ddl && s.pg16 && s.admin !in s.superusers
    requires once == Bootstrapped(s, plan, scan, c)
    ensures LeavesNoTrace(s, plan, once.catalog.edges) <==>
      LeavesMembership(s, plan, c, once.everGranted) || StillActs(s, plan, c, once)
  {
    MembershipLeft(s, plan, scan, c, once);
    if !LeavesMembership(s, plan, c, once.everGranted) {
      StillReaches(s, plan, scan, c, once, CanUse);
      StillReaches(s, plan, scan, c, once, CanSet);
    }
  }

  predicate StillActs(s: Session, plan: Plan, c: Catalog, once: Outcome) {
    var usable, settable := Left(s, plan, c, once, CanUse), Left(s, plan, c, once, CanSet);
    Reach(usable, s.admin, plan.ddl, |usable|) && Reach(settable, s.admin, plan.ddl, |settable|)
  }

  /** Without an app membership in the contract every list is declared once the first run is over. */
  lemma SecondRunIdleWithoutApp(s: Session, plan: Plan, scan: Scan, c: Catalog, once: Outcome, twice: Outcome)
    requires Enumerates(scan) && DistinctNames(plan.schemas) && s.admin != plan.ddl && plan.ddl != plan.app
    requires Script(s, plan, scan, c) == Some(once) && Script(s, plan, scan, once.catalog) == Some(twice)
    requires !plan.appMembership
    ensures twice.catalog == once.catalog <==> LeavesNoTrace(s, plan, once.catalog.edges)
  {
    RunDeclares(s, plan, scan, c, once);
    SecondRunChangesNothing(s, plan, scan, c, once, twice);
  }

  /** For a superuser, or before PostgreSQL 16, the lists alone decide. */
  lemma SecondRunIdleOtherwise(s: Session, plan: Plan, scan: Scan, c: Catalog, once: Outcome, twice: Outcome)
    requires Enumerates(scan) && DistinctNames(plan.schemas) && s.admin != plan.ddl && plan.ddl != plan.app
    requires !s.pg16 || s.admin in s.superusers
    requires Script(s, plan, scan, c) == Some(once) && Script(s, plan, scan, once.catalog) == Some(twice)
    ensures twice.catalog == once.catalog <==> AllDeclared(s, plan, once.catalog)
  {
    SecondRunChangesNothing(s, plan, scan, c, once, twice);
  }

  // ---- A catalog where the second run is not idle ----

  lemma {:induction false} ReachStaysInside(links: set<(Role, Role)>, inside: set<Role>, from: Role, to: Role, n: nat)
    requires from in inside && Reach(links, from, to, n)
    requires forall pair :: pair in links && pair.0 in inside ==> pair.1 in inside
    ensures to in inside
    decreases n
  {
    if from != to {
      var pair :| pair in links && pair.0 == from && Reach(links, pair.1, to, n - 1);
      ReachStaysInside(links, inside, pair.1, to, n - 1);
    }
  }

  /** Two roles between the admin and the DDL role: x passes privileges on, y only SET ROLE, and may lend it. */
  datatype Detour = Detour(x: Role, y: Role, table: Name, lends: bool)

  function DetourEdges(s: Session, plan: Plan, d: Detour, y: Edge): Edges {
    map[(s.admin, d.x) := Edge(false, true, false), (d.x, plan.ddl) := Edge(false, true, false),
        (s.admin, d.y) := y, (d.y, plan.ddl) := Edge(d.lends, false, true)]
  }

  function DetourSchema(plan: Plan, d: Detour): Schema {
    Schema(plan.ddl, map[To(plan.ddl) := {Usage, Create}], map[d.table := Relation(Table, d.y, map[], None, false)],
      map[], map[])
  }

  /** PostgreSQL 16, an admin who is no superuser, and five different roles. */
  predicate Apart(s: Session, plan: Plan, d: Detour) {
    && s.pg16 && s.superusers == {}
    && s.admin != plan.ddl && s.admin != plan.app && s.admin != d.x && s.admin != d.y && plan.ddl != plan.app
    && plan.ddl != d.x && plan.ddl != d.y && plan.app != d.x && plan.app != d.y && d.x != d.y
  }

  /** A plan with one governed schema and nothing special about it. */
  predicate SmallPlan(plan: Plan, sp: SchemaPlan) {
    && plan.schemas == [sp] && plan.readers == [] && !plan.appMembership && plan.searchPath == None
    && sp.appOwnedLike == []
  }

  /** The schema is the DDL role's but for one table, which is y's. */
  ghost predicate IsDetour(s: Session, plan: Plan, c: Catalog, sp: SchemaPlan, d: Detour) {
    && plan.ddl in c.roles && plan.app in c.roles
    && c.edges == DetourEdges(s, plan, d, Edge(true, false, true))
    && sp.name in c.schemas && c.schemas[sp.name] == DetourSchema(plan, d)
  }

  lemma NoWayOut(links: set<(Role, Role)>, inside: set<Role>, from: Role, to: Role, n: nat)
    requires from in inside && to !in inside
    requires forall pair :: pair in links && pair.0 in inside ==> pair.1 in inside
    ensures !Reach(links, from, to, n)
  {
    if Reach(links, from, to, n) {
      ReachStaysInside(links, inside, from, to, n);
    }
  }

  lemma TwoSteps(links: set<(Role, Role)>, from: Role, middle: Role, to: Role)
    requires (from, middle) in links && (middle, to) in links
    ensures Reach(links, from, to, |links|)
  {
    assert Reach(links, to, to, 0);
    assert Reach(links, middle, to, 1);
    assert Reach(links, from, to, 2);
    ReachBound(links, from, to, 2);
  }

  /**
    The admin has the privileges of the DDL role whatever y's edge allows; by y's edge it has y's, and may act
    as both.
   */
  lemma DetourReaches(s: Session, plan: Plan, d: Detour, y: Edge, edges: Edges)
    requires Apart(s, plan, d) && edges == DetourEdges(s, plan, d, y)
    ensures Acts(s, edges, plan.ddl) && (Acts(s, edges, d.y) <==> y.inherits)
    ensures y.sets ==> HasRole(s.superusers, edges, s.admin, plan.ddl, CanSet)
  {
    var usable := Links(edges, CanUse);
    TwoSteps(usable, s.admin, d.x, plan.ddl);
    if y.inherits {
      HasDirectly(s.superusers, edges, s.admin, d.y, CanUse);
    } else {
      NoWayOut(usable, {s.admin, d.x, plan.ddl}, s.admin, d.y, |usable|);
    }
    if y.sets {
      TwoSteps(Links(edges, CanSet), s.admin, d.y, plan.ddl);
    }
  }

  /** No circle is near, so that the admin may take what it has an admin option on. */
  lemma DetourMayTake(s: Session, plan: Plan, d: Detour, y: Edge, edges: Edges)
    requires Apart(s, plan, d) && edges == DetourEdges(s, plan, d, y)
    ensures y.admin ==> MayTake(s, edges, d.y)
    ensures MayTake(s, edges, plan.ddl) <==> d.lends
  {
    var all := Links(edges, IsMember);
    NoWayOut(all, {d.y, plan.ddl}, d.y, s.admin, |all|);
    NoWayOut(all, {plan.ddl}, plan.ddl, s.admin, |all|);
    if y.admin {
      assert (s.admin, d.y) in edges && HasRole(s.superusers, edges, s.admin, (s.admin, d.y).0, IsMember);
    }
    if d.lends {
      HasDirectly(s.superusers, edges, s.admin, d.y, IsMember);
      assert (d.y, plan.ddl) in edges && edges[(d.y, plan.ddl)].admin;
    }
  }

  lemma DetourGranted(s: Session, plan: Plan, d: Detour)
    requires Apart(s, plan, d)
    ensures Granted(DetourEdges(s, plan, d, Edge(true, false, true)), s.admin, d.y)
      == DetourEdges(s, plan, d, Edge(true, true, true))
    ensures Withdrawn(true, DetourEdges(s, plan, d, Edge(true, true, true)), s.admin, d.y)
      == DetourEdges(s, plan, d, Edge(true, false, false))
  {}

  lemma OneRelation(s: Session, plan: Plan, sp: SchemaPlan, acl: Acl, relations: map<Name, Relation>, name: Name,
                    p: Pass)
    requires name in relations && RelationRuns(s, acl, p, relations[name].owner, Target(plan, sp, name))
    ensures RelationLoopRuns(s, plan, sp, acl, relations, [name], p)
    ensures RelationLoop(s, plan, sp, relations, [name], p)
      == TakeForRelation(s, p, relations[name].owner, Target(plan, sp, name))
  {
    assert [name][..0] == [];
  }

  lemma OneBack(s: Session, edges: Edges, role: Role)
    ensures GiveBack(s, edges, [role]) == Withdrawn(s.pg16, edges, s.admin, role)
  {
    assert [role][..0] == [];
  }

  lemma OneBlock(s: Session, plan: Plan, sp: SchemaPlan, blocks: seq<SchemaPlan>, scan: Scan, o: Outcome)
    requires Enumerates(scan) && blocks == [sp]
    ensures SchemaBlocks(s, plan, blocks, scan, o) == SchemaBlock(s, plan, sp, scan, o)
    ensures BlocksRun(s, plan, blocks, scan, o)
      <==> BlockRuns(s, plan, sp, scan, SchemaOrNew(s.admin, o.catalog.schemas, sp.name), o.catalog.edges)
  {
    assert blocks[..0] == [];
  }

  lemma DetourMayOwn(s: Session, plan: Plan, edges: Edges, sp: SchemaPlan, d: Detour)
    requires plan.ddl != plan.app && plan.readers == []
    ensures MayOwn(s, edges, SchemaAcl(plan, sp, plan.ddl, DetourSchema(plan, d).acl), plan.ddl)
  {
    var acl := DetourSchema(plan, d).acl;
    SchemaAclHolds(plan, sp, plan.ddl, acl);
    assert Held(SchemaAcl(plan, sp, plan.ddl, acl), To(plan.ddl))
      == SchemaEntry(plan, sp, To(plan.ddl), Held(OwnerMoved(acl, plan.ddl, plan.ddl), To(plan.ddl)));
    OwnEntryCreates(s.superusers, edges, plan.ddl, SchemaAcl(plan, sp, plan.ddl, acl));
  }

  /** The one relation: y is granted with all its abilities, and then the DDL role needs no grant. */
  lemma DetourMove(s: Session, plan: Plan, d: Detour, acl: Acl, before: Edges, taken: Edges)
    requires Apart(s, plan, d) && MayOwn(s, taken, acl, plan.ddl)
    requires before == DetourEdges(s, plan, d, Edge(true, false, true))
      && taken == DetourEdges(s, plan, d, Edge(true, true, true))
    ensures TakeForRelation(s, Pass(before, []), d.y, plan.ddl) == Pass(taken, [d.y])
    ensures RelationRuns(s, acl, Pass(before, []), d.y, plan.ddl)
  {
    DetourReaches(s, plan, d, Edge(true, false, true), before);
    DetourMayTake(s, plan, d, Edge(true, false, true), before);
    DetourReaches(s, plan, d, Edge(true, true, true), taken);
    DetourGranted(s, plan, d);
    TakenOnce(s, before, taken, d.y, plan.ddl, acl);
  }

  lemma TakenOnce(s: Session, before: Edges, taken: Edges, owner: Role, target: Role, acl: Acl)
    requires owner != s.admin && owner != target && s.pg16
    requires !Acts(s, before, owner) && MayTake(s, before, owner) && taken == Granted(before, s.admin, owner)
    requires Acts(s, taken, target) && HasRole(s.superusers, taken, s.admin, target, CanSet)
      && MayOwn(s, taken, acl, target)
    ensures TakeForRelation(s, Pass(before, []), owner, target) == Pass(taken, [owner])
    ensures RelationRuns(s, acl, Pass(before, []), owner, target)
  {
    assert TakeOwner(s, Pass(before, []), owner) == Pass(taken, [owner]);
  }

  lemma DetourTargets(plan: Plan, sp: SchemaPlan, d: Detour, schema: Schema)
    requires SmallPlan(plan, sp) && schema == DetourSchema(plan, d)
    ensures Target(plan, sp, d.table) == plan.ddl
    ensures ManagedNames(schema) == {d.table} && StrayRoutines(plan, schema) == {}
  {}

  /** The block takes y, moves its table, and gives y back without its abilities. */
  lemma DetourTakes(s: Session, plan: Plan, scan: Scan, sp: SchemaPlan, d: Detour, schema: Schema, before: Edges)
    requires Enumerates(scan) && scan({d.table}) == [d.table] && scan({}) == []
    requires Apart(s, plan, d) && SmallPlan(plan, sp)
    requires schema == DetourSchema(plan, d) && before == DetourEdges(s, plan, d, Edge(true, false, true))
    ensures ReassignTakes(s, plan, sp, scan, schema, before).granted == [d.y]
    ensures EdgesAtGrants(s, plan, sp, scan, schema, before) == DetourEdges(s, plan, d, Edge(true, false, false))
    ensures ReassignRuns(s, plan, sp, scan, schema, before)
  {
    var taken, acl := DetourEdges(s, plan, d, Edge(true, true, true)), SchemaAcl(plan, sp, plan.ddl, schema.acl);
    DetourTargets(plan, sp, d, schema);
    DetourMayOwn(s, plan, taken, sp, d);
    DetourMove(s, plan, d, acl, before, taken);
    OneRelation(s, plan, sp, acl, schema.relations, d.table, Pass(before, []));
    OneBack(s, taken, d.y);
    DetourGranted(s, plan, d);
  }

  lemma DetourGrants(s: Session, plan: Plan, sp: SchemaPlan, d: Detour, schema: Schema, after: Edges)
    requires SmallPlan(plan, sp) && schema == DetourSchema(plan, d) && Acts(s, after, plan.ddl)
    ensures GrantsRun(s, after, plan, sp, schema)
  {
    DetourTargets(plan, sp, d, schema);
    assert OwnerAfter(plan, sp, schema.relations, d.table) == plan.ddl;
  }

  lemma DetourBlockRuns(s: Session, plan: Plan, scan: Scan, sp: SchemaPlan, d: Detour, schema: Schema, before: Edges)
    requires Enumerates(scan) && scan({d.table}) == [d.table] && scan({}) == []
    requires Apart(s, plan, d) && SmallPlan(plan, sp)
    requires schema == DetourSchema(plan, d) && before == DetourEdges(s, plan, d, Edge(true, false, true))
    ensures BlockRuns(s, plan, sp, scan, schema, before)
  {
    var after := DetourEdges(s, plan, d, Edge(true, false, false));
    DetourTakes(s, plan, scan, sp, d, schema, before);
    DetourReaches(s, plan, d, Edge(true, false, true), before);
    DetourReaches(s, plan, d, Edge(true, false, false), after);
    DetourGrants(s, plan, sp, d, schema, after);
  }

  /** The opening finds nothing to do to the roles and memberships. */
  lemma DetourOpens(s: Session, plan: Plan, c: Catalog, sp: SchemaPlan, d: Detour)
    requires Apart(s, plan, d) && IsDetour(s, plan, c, sp, d)
    ensures OpenRuns(s, plan, c)
    ensures var o := Opened(s, plan, c);
      o.catalog.edges == c.edges && o.everGranted == [] && o.catalog.schemas == c.schemas
  {
    assert Names([plan.ddl, plan.app]) == {plan.ddl, plan.app};
    IdleEnsure(s, c, [plan.ddl, plan.app]);
    DetourReaches(s, plan, d, Edge(true, false, true), c.edges);
  }

  /** The script finishes, and y is all that it granted on the way. */
  lemma DetourFinishes(s: Session, plan: Plan, scan: Scan, c: Catalog, sp: SchemaPlan, d: Detour)
    requires Enumerates(scan) && scan({d.table}) == [d.table] && scan({}) == []
    requires Apart(s, plan, d) && SmallPlan(plan, sp) && IsDetour(s, plan, c, sp, d)
    ensures Script(s, plan, scan, c) == Some(Bootstrapped(s, plan, scan, c))
    ensures Bootstrapped(s, plan, scan, c).everGranted == [d.y]
  {
    DetourOpens(s, plan, c, sp, d);
    DetourBlockRuns(s, plan, scan, sp, d, c.schemas[sp.name], c.edges);
    OneBlock(s, plan, sp, plan.schemas, scan, Opened(s, plan, c));
    SmallBootstrapped(s, plan, scan, c, sp);
    DetourBlockGrants(s, plan, scan, sp, d, Opened(s, plan, c));
  }

  lemma DetourBlockGrants(s: Session, plan: Plan, scan: Scan, sp: SchemaPlan, d: Detour, o: Outcome)
    requires Enumerates(scan) && scan({d.table}) == [d.table] && scan({}) == []
    requires Apart(s, plan, d) && SmallPlan(plan, sp)
    requires o.catalog.edges == DetourEdges(s, plan, d, Edge(true, false, true)) && o.everGranted == []
    requires sp.name in o.catalog.schemas && o.catalog.schemas[sp.name] == DetourSchema(plan, d)
    ensures SchemaBlock(s, plan, sp, scan, o).everGranted == [d.y]
  {
    DetourTakes(s, plan, scan, sp, d, o.catalog.schemas[sp.name], o.catalog.edges);
  }

  /** Without y's edge nothing leads from the admin to SET ROLE for the DDL role. */
  lemma DetourLost(s: Session, plan: Plan, c: Catalog, sp: SchemaPlan, d: Detour, once: Outcome)
    requires Apart(s, plan, d) && IsDetour(s, plan, c, sp, d) && once.everGranted == [d.y]
    ensures !LeavesMembership(s, plan, c, once.everGranted) && !StillActs(s, plan, c, once)
  {
    var settable := Left(s, plan, c, once, CanSet);
    assert d.y in once.everGranted && d.y in Names(once.everGranted);
    NoWayOut(settable, {s.admin}, s.admin, plan.ddl, |settable|);
  }

  /** The first run leaves the starting memberships, but for the abilities of y's. */
  lemma DetourEnds(s: Session, plan: Plan, scan: Scan, c: Catalog, sp: SchemaPlan, d: Detour)
    requires Enumerates(scan) && scan({d.table}) == [d.table] && scan({}) == []
    requires Apart(s, plan, d) && SmallPlan(plan, sp) && IsDetour(s, plan, c, sp, d)
    ensures Bootstrapped(s, plan, scan, c).catalog.edges == DetourEdges(s, plan, d, Edge(true, false, false))
  {
    var start := Opened(s, plan, c);
    DetourOpens(s, plan, c, sp, d);
    SmallBootstrapped(s, plan, scan, c, sp);
    DetourBlockCloses(s, plan, scan, sp, d, start);
  }

  lemma DetourBlockCloses(s: Session, plan: Plan, scan: Scan, sp: SchemaPlan, d: Detour, o: Outcome)
    requires Enumerates(scan) && scan({d.table}) == [d.table] && scan({}) == []
    requires Apart(s, plan, d) && SmallPlan(plan, sp)
    requires o.catalog.edges == DetourEdges(s, plan, d, Edge(true, false, true))
    requires sp.name in o.catalog.schemas && o.catalog.schemas[sp.name] == DetourSchema(plan, d)
    ensures Closed(s, plan, SchemaBlock(s, plan, sp, scan, o)).catalog.edges
      == DetourEdges(s, plan, d, Edge(true, false, false))
  {
    DetourBlockEnds(s, plan, scan, sp, d, o);
    DetourCloses(s, plan, sp, d, SchemaBlock(s, plan, sp, scan, o));
  }

  lemma DetourCloses(s: Session, plan: Plan, sp: SchemaPlan, d: Detour, o: Outcome)
    requires Apart(s, plan, d) && SmallPlan(plan, sp)
    requires o.catalog.edges == DetourEdges(s, plan, d, Edge(true, false, false))
    ensures Closed(s, plan, o).catalog.edges == o.catalog.edges
  {
    SmallCloses(s, plan, sp, o);
  }

  lemma DetourBlockEnds(s: Session, plan: Plan, scan: Scan, sp: SchemaPlan, d: Detour, o: Outcome)
    requires Enumerates(scan) && scan({d.table}) == [d.table] && scan({}) == []
    requires Apart(s, plan, d) && SmallPlan(plan, sp)
    requires o.catalog.edges == DetourEdges(s, plan, d, Edge(true, false, true))
    requires sp.name in o.catalog.schemas && o.catalog.schemas[sp.name] == DetourSchema(plan, d)
    ensures SchemaBlock(s, plan, sp, scan, o).catalog.edges == DetourEdges(s, plan, d, Edge(true, false, false))
  {
    DetourTakes(s, plan, scan, sp, d, o.catalog.schemas[sp.name], o.catalog.edges);
  }

  lemma SmallBootstrapped(s: Session, plan: Plan, scan: Scan, c: Catalog, sp: SchemaPlan)
    requires Enumerates(scan) && plan.schemas == [sp]
    ensures Bootstrapped(s, plan, scan, c) == Closed(s, plan, SchemaBlock(s, plan, sp, scan, Opened(s, plan, c)))
  {
    OneBlock(s, plan, sp, plan.schemas, scan, Opened(s, plan, c));
  }

  lemma SmallCloses(s: Session, plan: Plan, sp: SchemaPlan, o: Outcome)
    requires SmallPlan(plan, sp)
    requires (s.admin, plan.ddl) !in o.catalog.edges && (s.admin, plan.app) !in o.catalog.edges
    ensures Closed(s, plan, o).catalog.edges == o.catalog.edges
  {}

  /** The second run finds the DDL membership missing, and can take it exactly when y lends it. */
  lemma DetourRetaken(s: Session, plan: Plan, d: Detour, edges: Edges)
    requires Apart(s, plan, d) && edges == DetourEdges(s, plan, d, Edge(true, false, false))
    ensures TakeDdl(s, Pass(edges, []), plan.ddl) != Pass(edges, []) && Acts(s, Retaken(s, plan, edges), plan.ddl)
    ensures MayTake(s, edges, plan.ddl) <==> d.lends
  {
    var settable := Links(edges, CanSet);
    DetourReaches(s, plan, d, Edge(true, false, false), edges);
    DetourMayTake(s, plan, d, Edge(true, false, false), edges);
    NoWayOut(settable, {s.admin}, s.admin, plan.ddl, |settable|);
    HasDirectly(s.superusers, Retaken(s, plan, edges), s.admin, plan.ddl, CanUse);
  }

  /** Afterwards the one table is the DDL role's. */
  lemma DetourAllows(s: Session, plan: Plan, scan: Scan, c: Catalog, sp: SchemaPlan, d: Detour, edges: Edges)
    requires Enumerates(scan) && SmallPlan(plan, sp) && IsDetour(s, plan, c, sp, d) && Acts(s, edges, plan.ddl)
    ensures var after := Bootstrapped(s, plan, scan, c).catalog.schemas;
      sp.name in after && GrantsAllowed(s, edges, sp, after[sp.name])
  {
    BootstrapReaches(s, plan, scan, c, 0, c.schemas[sp.name]);
    DetourSchemaAllows(s, ScriptEdges(s, plan, scan, c)[0], plan, sp, d, c.schemas[sp.name], edges);
  }

  lemma DetourSchemaAllows(s: Session, first: Edges, plan: Plan, sp: SchemaPlan, d: Detour, schema: Schema,
                           edges: Edges)
    requires SmallPlan(plan, sp) && schema == DetourSchema(plan, d) && Acts(s, edges, plan.ddl)
    ensures GrantsAllowed(s, edges, sp, SchemaAfter(s, first, plan, sp, schema))
  {
    DetourTargets(plan, sp, d, schema);
    assert OwnerAfter(plan, sp, schema.relations, d.table) == plan.ddl;
  }

  lemma DetourRunsAgain(s: Session, plan: Plan, scan: Scan, c: Catalog, sp: SchemaPlan, d: Detour, once: Outcome)
    requires Enumerates(scan) && scan({d.table}) == [d.table] && scan({}) == []
    requires Apart(s, plan, d) && SmallPlan(plan, sp) && IsDetour(s, plan, c, sp, d)
    requires once == Bootstrapped(s, plan, scan, c)
    ensures RunsAgain(s, plan, once.catalog) <==> d.lends
  {
    DetourEnds(s, plan, scan, c, sp, d);
    DetourRetaken(s, plan, d, once.catalog.edges);
    DetourAllows(s, plan, scan, c, sp, d, Retaken(s, plan, once.catalog.edges));
    SmallRunsAgain(s, plan, sp, once.catalog);
  }

  lemma SmallRunsAgain(s: Session, plan: Plan, sp: SchemaPlan, c: Catalog)
    requires SmallPlan(plan, sp) && sp.name in c.schemas
    requires TakeDdl(s, Pass(c.edges, []), plan.ddl) != Pass(c.edges, [])
      && Acts(s, Retaken(s, plan, c.edges), plan.ddl)
    requires GrantsAllowed(s, Retaken(s, plan, c.edges), sp, c.schemas[sp.name])
    ensures RunsAgain(s, plan, c) <==> MayTake(s, c.edges, plan.ddl)
  {}

  /** There a second run gets to its end exactly when y lends the DDL role, and then adds a membership. */
  lemma DetourNotIdle(s: Session, plan: Plan, scan: Scan, c: Catalog, sp: SchemaPlan, d: Detour, once: Outcome)
    requires Enumerates(scan) && scan({d.table}) == [d.table] && scan({}) == []
    requires Apart(s, plan, d) && SmallPlan(plan, sp) && IsDetour(s, plan, c, sp, d)
    requires once == Bootstrapped(s, plan, scan, c)
    ensures Script(s, plan, scan, c) == Some(once)
    ensures Script(s, plan, scan, once.catalog).Some? <==> d.lends
    ensures d.lends ==> Script(s, plan, scan, once.catalog).value.catalog != once.catalog
  {
    DetourFinishes(s, plan, scan, c, sp, d);
    DetourLost(s, plan, c, sp, d, once);
    DetourRunsAgain(s, plan, scan, c, sp, d, once);
    SecondRunFinishesIff(s, plan, scan, c, once);
    if d.lends {
      SecondRunIdleIff(s, plan, scan, c, once, Bootstrapped(s, plan, scan, once.catalog));
    }
  }
}
