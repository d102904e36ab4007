/** When the script gets to its end: what stops it, and what a catalog must offer for it not to stop. */
module DbFinishing {
  import opened Common
  import opened DbCatalog
  import opened DbContract
  import opened DbContractProofs
  import opened DbContractTheorems

  // ---- Block by block ----

  /** Block i meets its schema as the script found it: no other block has touched it. */
  lemma MetAsFound(s: Session, plan: Plan, blocks: seq<SchemaPlan>, scan: Scan, o: Outcome, i: nat)
    requires Enumerates(scan) && DistinctNames(blocks) && i < |blocks|
    ensures SchemaOrNew(s.admin, SchemaBlocks(s, plan, blocks[..i], scan, o).catalog.schemas, blocks[i].name)
      == SchemaOrNew(s.admin, o.catalog.schemas, blocks[i].name)
  {
    BlocksRewrite(s, plan, blocks[..i], scan, o);
    RewritingSpares(s, plan, blocks[..i], GrantEdges(s, plan, blocks[..i], scan, o), o.catalog.schemas, blocks[i].name);
  }

  /** Block i runs, on its schema as it was at the start and the memberships that the blocks before it left. */
  ghost predicate RunsAt(s: Session, plan: Plan, blocks: seq<SchemaPlan>, scan: Scan, o: Outcome, i: nat)
    requires Enumerates(scan) && i < |blocks|
  {
    BlockRuns(s, plan, blocks[i], scan, SchemaOrNew(s.admin, o.catalog.schemas, blocks[i].name),
              SchemaBlocks(s, plan, blocks[..i], scan, o).catalog.edges)
  }

  lemma LastRuns(s: Session, plan: Plan, blocks: seq<SchemaPlan>, scan: Scan, o: Outcome, n: nat)
    requires Enumerates(scan) && DistinctNames(blocks) && |blocks| == n + 1
    ensures BlocksRun(s, plan, blocks, scan, o)
      <==> BlocksRun(s, plan, blocks[..n], scan, o) && RunsAt(s, plan, blocks, scan, o, n)
  {
    MetAsFound(s, plan, blocks, scan, o, n);
  }

  lemma EarlierRuns(s: Session, plan: Plan, blocks: seq<SchemaPlan>, scan: Scan, o: Outcome, n: nat, i: nat)
    requires Enumerates(scan) && i < n <= |blocks|
    ensures RunsAt(s, plan, blocks, scan, o, i) <==> RunsAt(s, plan, blocks[..n], scan, o, i)
  {
    assert blocks[..n][..i] == blocks[..i];
  }

  ghost predicate FirstRun(s: Session, plan: Plan, blocks: seq<SchemaPlan>, scan: Scan, o: Outcome, n: nat)
    requires Enumerates(scan) && n <= |blocks|
  {
    forall i :: 0 <= i < n ==> RunsAt(s, plan, blocks, scan, o, i)
  }

  lemma EarlierAllRun(s: Session, plan: Plan, blocks: seq<SchemaPlan>, scan: Scan, o: Outcome, n: nat)
    requires Enumerates(scan) && n < |blocks|
    ensures FirstRun(s, plan, blocks[..n], scan, o, n) <==> FirstRun(s, plan, blocks, scan, o, n)
  {
    forall i | 0 <= i < n
      ensures RunsAt(s, plan, blocks, scan, o, i) <==> RunsAt(s, plan, blocks[..n], scan, o, i)
    {
      EarlierRuns(s, plan, blocks, scan, o, n, i);
    }
  }

  lemma OneMoreRuns(s: Session, plan: Plan, blocks: seq<SchemaPlan>, scan: Scan, o: Outcome, n: nat)
    requires Enumerates(scan) && n < |blocks|
    ensures FirstRun(s, plan, blocks, scan, o, n + 1)
      <==> FirstRun(s, plan, blocks, scan, o, n) && RunsAt(s, plan, blocks, scan, o, n)
  {}

  /** The script runs through its blocks when each of them runs where it is reached. */
  lemma {:induction false} BlocksRunEach(s: Session, plan: Plan, blocks: seq<SchemaPlan>, scan: Scan, o: Outcome)
    requires Enumerates(scan) && DistinctNames(blocks)
    ensures BlocksRun(s, plan, blocks, scan, o) <==> FirstRun(s, plan, blocks, scan, o, |blocks|)
    decreases |blocks|
  {
    if blocks != [] {
      var n := |blocks| - 1;
      BlocksRunEach(s, plan, blocks[..n], scan, o);
      LastRuns(s, plan, blocks, scan, o, n);
      EarlierAllRun(s, plan, blocks, scan, o, n);
      OneMoreRuns(s, plan, blocks, scan, o, n);
    }
  }

  // ---- A stray procedure stops the script ----

  /** A procedure outside extensions that is not the DDL role's already. */
  predicate StrayProcedure(plan: Plan, schema: Schema, name: Name) {
    name in StrayRoutines(plan, schema) && schema.routines[name].kind == Procedure
  }

  predicate NoStrayProcedure(plan: Plan, schema: Schema) {
    forall name :: name in schema.routines ==> !StrayProcedure(plan, schema, name)
  }

  ghost predicate NoStrayProcedures(s: Session, plan: Plan, c: Catalog) {
    forall sp :: sp in plan.schemas ==> NoStrayProcedure(plan, SchemaOrNew(s.admin, c.schemas, sp.name))
  }

  lemma {:induction false} LoopMeetsFunctions(s: Session, plan: Plan, acl: Acl, routines: map<Name, Routine>,
                                              names: seq<Name>, p: Pass)
    requires forall name :: name in names ==> name in routines
    requires RoutineLoopRuns(s, plan, acl, routines, names, p)
    ensures forall name :: name in names ==> routines[name].kind == Function
    decreases |names|
  {
    if names != [] {
      var n := |names| - 1;
      LoopMeetsFunctions(s, plan, acl, routines, names[..n], p);
      assert names == names[..n] + [names[n]];
    }
  }

  /** One stray procedure in one governed schema, and the script does not get to its end, whoever runs it. */
  lemma StrayProcedureStops(s: Session, plan: Plan, scan: Scan, c: Catalog, i: nat, name: Name)
    requires Enumerates(scan) && DistinctNames(plan.schemas) && i < |plan.schemas|
    requires StrayProcedure(plan, SchemaOrNew(s.admin, c.schemas, plan.schemas[i].name), name)
    ensures Script(s, plan, scan, c) == None
  {
    var start := Opened(s, plan, c);
    var schema := SchemaOrNew(s.admin, c.schemas, plan.schemas[i].name);
    OpenedEdges(s, plan, c);
    BlocksRunEach(s, plan, plan.schemas, scan, start);
    if RunsAt(s, plan, plan.schemas, scan, start, i) {
      var edges := SchemaBlocks(s, plan, plan.schemas[..i], scan, start).catalog.edges;
      ProcedureStopsBlock(s, plan, plan.schemas[i], scan, schema, edges, name);
    }
  }

  lemma ProcedureStopsBlock(s: Session, plan: Plan, sp: SchemaPlan, scan: Scan, schema: Schema, edges: Edges,
                            name: Name)
    requires Enumerates(scan) && StrayProcedure(plan, schema, name)
    ensures !BlockRuns(s, plan, sp, scan, schema, edges)
  {
    var stray := scan(StrayRoutines(plan, schema));
    assert name in stray;
    if ReassignRuns(s, plan, sp, scan, schema, edges) {
      LoopMeetsFunctions(s, plan, SchemaAcl(plan, sp, schema.owner, schema.acl), schema.routines, stray,
        RelationLoop(s, plan, sp, schema.relations, scan(ManagedNames(schema)), Pass(edges, [])));
    }
  }

  // ---- What lasts while the blocks run ----

  /** The memberships that give privileges and that no block takes away. */
  function Base(s: Session, plan: Plan, edges: Edges): set<(Role, Role)> {
    Links(edges, CanUse) - {(s.admin, plan.app)}
  }

  /** A direct membership of the admin with all the abilities that the script looks for. */
  predicate Direct(s: Session, edges: Edges, role: Role) {
    (s.admin, role) in edges && edges[(s.admin, role)].inherits && edges[(s.admin, role)].sets
  }

  /** No membership goes, and no admin option. */
  ghost predicate Widens(a: Edges, b: Edges) {
    forall pair :: pair in a ==> pair in b && (a[pair].admin ==> b[pair].admin)
  }

  lemma MayGrantLasts(s: Session, a: Edges, b: Edges, role: Role)
    requires MayGrant(s, a, role) && (s.pg16 ==> Widens(a, b))
    ensures MayGrant(s, b, role)
  {
    if s.admin !in s.superusers && s.pg16 {
      var pair :| pair in a && pair.1 == role && a[pair].admin && HasRole(s.superusers, a, s.admin, pair.0, IsMember);
      HasRoleMonotone(s.superusers, a, b, s.admin, pair.0, IsMember);
      assert pair in b && b[pair].admin;
    }
  }

  /** Only the admin's own memberships may come or go. */
  ghost predicate SameElsewhere(s: Session, a: Edges, b: Edges) {
    forall pair: (Role, Role) :: pair.0 != s.admin ==> (pair in a <==> pair in b)
  }

  /** Whether a grant to the admin would close a circle does not turn on the admin's own memberships. */
  lemma CircularElsewhere(s: Session, a: Edges, b: Edges, role: Role)
    requires SameElsewhere(s, a, b) && Circular(a, s.admin, role)
    ensures Circular(b, s.admin, role)
  {
    var before, after := Links(a, IsMember), Links(b, IsMember);
    ReachUntil(before, after, role, s.admin, |before|);
    ReachBound(after, role, s.admin, |before|);
  }

  lemma MayTakeLasts(s: Session, a: Edges, b: Edges, role: Role)
    requires MayTake(s, a, role) && (s.pg16 ==> Widens(a, b)) && SameElsewhere(s, a, b)
    ensures MayTake(s, b, role)
  {
    MayGrantLasts(s, a, b, role);
    if Circular(b, s.admin, role) {
      CircularElsewhere(s, b, a, role);
    }
  }

  /** What the script can count on at any point between its opening and its closing. */
  ghost predicate Lasting(s: Session, plan: Plan, open: Edges, edges: Edges) {
    && Base(s, plan, open) <= Links(edges, CanUse)
    && Direct(s, edges, plan.ddl) && SameElsewhere(s, open, edges)
    && (s.pg16 ==> Widens(open, edges))
  }

  predicate Counts(s: Session, base: set<(Role, Role)>, role: Role) {
    Reach(base, s.admin, role, |base|)
  }

  lemma CountsActs(s: Session, plan: Plan, open: Edges, edges: Edges, role: Role)
    requires Lasting(s, plan, open, edges) && Counts(s, Base(s, plan, open), role)
    ensures Acts(s, edges, role)
  {
    var base, links := Base(s, plan, open), Links(edges, CanUse);
    SubsetSize(base, links);
    ReachMonotone(base, links, s.admin, role, |base|, |links|);
  }

  lemma DirectHas(s: Session, edges: Edges, role: Role)
    requires Direct(s, edges, role)
    ensures Acts(s, edges, role) && HasRole(s.superusers, edges, s.admin, role, SetAbility(s))
  {
    HasDirectly(s.superusers, edges, s.admin, role, CanUse);
    HasDirectly(s.superusers, edges, s.admin, role, SetAbility(s));
  }

  predicate Kept(before: Edge, after: Edge) {
    (before.inherits ==> after.inherits) && (before.sets ==> after.sets) && (before.admin ==> after.admin)
  }

  /**
    During one block: what was there is still there, and what was granted was not of use before, unless the app
    role.
   */
  ghost predicate Careful(s: Session, plan: Plan, before: Edges, p: Pass) {
    && SameElsewhere(s, before, p.edges)
    && (forall pair :: pair in before ==> pair in p.edges && Kept(before[pair], p.edges[pair]))
    && (forall role ::
      role in p.granted ==> role != plan.ddl && (role == plan.app || (s.admin, role) !in Links(before, CanUse)))
  }

  lemma CarefulTake(s: Session, plan: Plan, before: Edges, p: Pass, role: Role)
    requires Careful(s, plan, before, p) && role != plan.ddl
    requires role == plan.app || !Has(s, p, role, CanUse)
    ensures Careful(s, plan, before, Take(s, p, role))
  {
    if (s.admin, role) in Links(before, CanUse) {
      HasDirectly(s.superusers, p.edges, s.admin, role, CanUse);
    }
  }

  lemma CarefulStaysDirect(s: Session, plan: Plan, before: Edges, p: Pass)
    requires Careful(s, plan, before, p) && Direct(s, before, plan.ddl)
    ensures Has(s, p, plan.ddl, CanUse) && Has(s, p, plan.ddl, SetAbility(s))
  {
    DirectHas(s, p.edges, plan.ddl);
  }

  lemma CarefulOwner(s: Session, plan: Plan, before: Edges, p: Pass, owner: Role)
    requires Careful(s, plan, before, p) && Direct(s, before, plan.ddl)
    ensures Careful(s, plan, before, TakeOwner(s, p, owner))
  {
    CarefulStaysDirect(s, plan, before, p);
    if owner != s.admin && !Has(s, p, owner, CanUse) {
      CarefulTake(s, plan, before, p, owner);
    }
  }

  lemma CarefulTarget(s: Session, plan: Plan, before: Edges, p: Pass, target: Role)
    requires Careful(s, plan, before, p) && Direct(s, before, plan.ddl) && (target == plan.ddl || target == plan.app)
    ensures Careful(s, plan, before, TakeTarget(s, p, target))
  {
    CarefulStaysDirect(s, plan, before, p);
    if target != plan.ddl && TakeTarget(s, p, target) != p {
      CarefulTake(s, plan, before, p, target);
    }
  }

  lemma {:induction false} CarefulRelations(s: Session, plan: Plan, sp: SchemaPlan, relations: map<Name, Relation>,
                                            names: seq<Name>, before: Edges)
    requires forall name :: name in names ==> name in relations
    requires Direct(s, before, plan.ddl)
    ensures Careful(s, plan, before, RelationLoop(s, plan, sp, relations, names, Pass(before, [])))
    decreases |names|
  {
    if names != [] {
      var n := |names| - 1;
      var p := RelationLoop(s, plan, sp, relations, names[..n], Pass(before, []));
      CarefulRelations(s, plan, sp, relations, names[..n], before);
      CarefulOwner(s, plan, before, p, relations[names[n]].owner);
      CarefulTarget(s, plan, before, TakeOwner(s, p, relations[names[n]].owner), Target(plan, sp, names[n]));
    }
  }

  lemma {:induction false} CarefulRoutines(s: Session, plan: Plan, routines: map<Name, Routine>, names: seq<Name>,
                                           before: Edges, p: Pass)
    requires forall name :: name in names ==> name in routines
    requires Direct(s, before, plan.ddl) && Careful(s, plan, before, p)
    ensures Careful(s, plan, before, RoutineLoop(s, routines, names, p))
    decreases |names|
  {
    if names != [] {
      var n := |names| - 1;
      CarefulRoutines(s, plan, routines, names[..n], before, p);
      CarefulOwner(s, plan, before, RoutineLoop(s, routines, names[..n], p), routines[names[n]].owner);
    }
  }

  lemma TakesCareful(s: Session, plan: Plan, sp: SchemaPlan, scan: Scan, schema: Schema, edges: Edges)
    requires Enumerates(scan) && Direct(s, edges, plan.ddl)
    ensures Careful(s, plan, edges, ReassignTakes(s, plan, sp, scan, schema, edges))
  {
    var managed := scan(ManagedNames(schema));
    CarefulRelations(s, plan, sp, schema.relations, managed, edges);
    CarefulRoutines(s, plan, schema.routines, scan(StrayRoutines(plan, schema)), edges,
      RelationLoop(s, plan, sp, schema.relations, managed, Pass(edges, [])));
  }

  /** Giving back touches only the admin's memberships in the roles granted, and from PostgreSQL 16 on removes none. */
  lemma {:induction false} GiveBackWidens(s: Session, edges: Edges, granted: seq<Role>)
    requires s.pg16
    ensures Widens(edges, GiveBack(s, edges, granted))
    decreases |granted|
  {
    if granted != [] {
      GiveBackWidens(s, edges, granted[..|granted| - 1]);
    }
  }

  /** One block leaves everything that lasts. */
  lemma BlockLasts(s: Session, plan: Plan, sp: SchemaPlan, scan: Scan, schema: Schema, open: Edges, edges: Edges)
    requires Enumerates(scan) && Lasting(s, plan, open, edges)
    ensures Lasting(s, plan, open, EdgesAtGrants(s, plan, sp, scan, schema, edges))
  {
    var takes := ReassignTakes(s, plan, sp, scan, schema, edges);
    var after := GiveBack(s, takes.edges, takes.granted);
    TakesCareful(s, plan, sp, scan, schema, edges);
    GiveBackCleans(s, takes.edges, takes.granted);
    if s.pg16 {
      GiveBackWidens(s, takes.edges, takes.granted);
    }
    forall pair | pair in Base(s, plan, open)
      ensures pair in Links(after, CanUse)
    {
      assert pair in Links(edges, CanUse);
      assert pair.0 != s.admin || pair.1 !in Names(takes.granted);
      assert SameEdge(takes.edges, after, pair.0, pair.1);
    }
    assert SameEdge(takes.edges, after, s.admin, plan.ddl);
    forall pair: (Role, Role) | pair.0 != s.admin
      ensures pair in open <==> pair in after
    {
      assert SameEdge(takes.edges, after, pair.0, pair.1);
    }
  }

  lemma {:induction false} BlocksLast(s: Session, plan: Plan, blocks: seq<SchemaPlan>, scan: Scan, o: Outcome)
    requires Enumerates(scan) && Direct(s, o.catalog.edges, plan.ddl)
    ensures Lasting(s, plan, o.catalog.edges, SchemaBlocks(s, plan, blocks, scan, o).catalog.edges)
    decreases |blocks|
  {
    if blocks != [] {
      var n := |blocks| - 1;
      BlocksLast(s, plan, blocks[..n], scan, o);
      var before := SchemaBlocks(s, plan, blocks[..n], scan, o).catalog;
      BlockLasts(s, plan, blocks[n], scan, SchemaOrNew(s.admin, before.schemas, blocks[n].name), o.catalog.edges,
        before.edges);
    }
  }

  // ---- What a catalog must offer ----

  /** The owner is the admin, or a role it can count on, or one it may grant itself. */
  predicate Takeable(s: Session, base: set<(Role, Role)>, open: Edges, owner: Role) {
    owner == s.admin || Counts(s, base, owner) || MayTake(s, open, owner)
  }

  /** A relation that has to move can be taken and given. */
  predicate MoveReady(s: Session, plan: Plan, sp: SchemaPlan, open: Edges, schema: Schema, name: Name)
    requires name in schema.relations
  {
    var target := Target(plan, sp, name);
    && Takeable(s, Base(s, plan, open), open, schema.relations[name].owner)
    && (target == plan.ddl || MayTake(s, open, target))
    && Create in Held(SchemaAcl(plan, sp, schema.owner, schema.acl), To(target))
  }

  /** A routine that has to move is a function, and can be taken and given. */
  predicate RoutineReady(s: Session, plan: Plan, sp: SchemaPlan, open: Edges, schema: Schema, name: Name)
    requires name in schema.routines
  {
    && schema.routines[name].kind == Function
    && Takeable(s, Base(s, plan, open), open, schema.routines[name].owner)
    && Create in Held(SchemaAcl(plan, sp, schema.owner, schema.acl), To(plan.ddl))
  }

  /** The admin can count on acting for the owner, or on holding something. */
  predicate GrantReady(s: Session, plan: Plan, base: set<(Role, Role)>, owner: Role, acl: Acl) {
    || owner == plan.ddl || Counts(s, base, owner)
    || exists g :: g in acl && acl[g] != {} && (g.Public? || Counts(s, base, g.role))
  }

  ghost predicate SchemaReady(s: Session, plan: Plan, sp: SchemaPlan, open: Edges, schema: Schema) {
    var base := Base(s, plan, open);
    && (schema.owner == plan.ddl || Counts(s, base, schema.owner))
    && (forall name :: name in schema.relations && Moves(plan, sp, schema.relations, name) ==>
          MoveReady(s, plan, sp, open, schema, name))
    && (forall name :: name in StrayRoutines(plan, schema) ==> RoutineReady(s, plan, sp, open, schema, name))
    && (forall name :: name in schema.relations && Covered(schema.relations[name].kind) ==>
          var moved := Reassigned(plan, sp, schema.relations, name); GrantReady(s, plan, base, moved.owner, moved.acl))
    && (forall name :: name in schema.routines && FunctionsGranted(sp, schema.routines[name]) ==>
          var moved := RoutineReassigned(plan, schema.routines[name]);
            GrantReady(s, plan, base, moved.owner, moved.acl))
  }

  /**
    Read off the starting catalog: the admin ends up with a direct membership in the DDL role, every owner it
    meets is one it can act for or take, nothing to be moved is a procedure, and it holds something on whatever
    else the grants cover.
   */
  ghost predicate Ready(s: Session, plan: Plan, c: Catalog) {
    var open := Opened(s, plan, c).catalog.edges;
    && OpenRuns(s, plan, c) && Direct(s, open, plan.ddl)
    && (forall sp :: sp in plan.schemas ==> SchemaReady(s, plan, sp, open, SchemaOrNew(s.admin, c.schemas, sp.name)))
    && CloseRuns(s, plan, open)
  }

  lemma TakeableRuns(s: Session, plan: Plan, open: Edges, edges: Edges, p: Pass, owner: Role)
    requires Lasting(s, plan, open, edges) && Careful(s, plan, edges, p)
      && Takeable(s, Base(s, plan, open), open, owner)
    ensures TakeOwnerRuns(s, p, owner)
  {
    if Counts(s, Base(s, plan, open), owner) {
      CountsActs(s, plan, open, edges, owner);
      HasRoleMonotone(s.superusers, edges, p.edges, s.admin, owner, CanUse);
    }
    if MayTake(s, open, owner) {
      MayTakeLasts(s, open, p.edges, owner);
    }
  }

  lemma OwnEntryCreates(superusers: set<Role>, edges: Edges, role: Role, acl: Acl)
    requires Create in Held(acl, To(role))
    ensures CreatesIn(superusers, edges, role, acl)
  {
    assert To(role) in acl && Create in acl[To(role)];
    assert HasRole(superusers, edges, role, To(role).role, CanUse);
  }

  lemma RelationReadyRuns(s: Session, plan: Plan, sp: SchemaPlan, open: Edges, edges: Edges, schema: Schema, name: Name,
                          p: Pass)
    requires Lasting(s, plan, open, edges) && Careful(s, plan, edges, p)
    requires name in schema.relations && MoveReady(s, plan, sp, open, schema, name)
    ensures RelationRuns(s, SchemaAcl(plan, sp, schema.owner, schema.acl), p, schema.relations[name].owner,
      Target(plan, sp, name))
  {
    var owner, target := schema.relations[name].owner, Target(plan, sp, name);
    var q := TakeOwner(s, p, owner);
    TakeableRuns(s, plan, open, edges, p, owner);
    CarefulOwner(s, plan, edges, p, owner);
    if target == plan.ddl {
      CarefulStaysDirect(s, plan, edges, q);
    } else {
      MayTakeLasts(s, open, q.edges, target);
    }
    OwnEntryCreates(s.superusers, TakeTarget(s, q, target).edges, target,
      SchemaAcl(plan, sp, schema.owner, schema.acl));
  }

  lemma {:induction false} RelationsReadyRun(s: Session, plan: Plan, sp: SchemaPlan, open: Edges, edges: Edges,
                                             schema: Schema, names: seq<Name>)
    requires Lasting(s, plan, open, edges)
    requires forall name :: name in names ==> name in schema.relations && Managed(schema.relations[name])
    requires forall name :: name in schema.relations && Moves(plan, sp, schema.relations, name) ==>
      MoveReady(s, plan, sp, open, schema, name)
    ensures RelationLoopRuns(s, plan, sp, SchemaAcl(plan, sp, schema.owner, schema.acl), schema.relations, names,
      Pass(edges, []))
    decreases |names|
  {
    if names != [] {
      var n := |names| - 1;
      RelationsReadyRun(s, plan, sp, open, edges, schema, names[..n]);
      CarefulRelations(s, plan, sp, schema.relations, names[..n], edges);
      assert names[n] in names;
      if Moves(plan, sp, schema.relations, names[n]) {
        RelationReadyRuns(s, plan, sp, open, edges, schema, names[n],
          RelationLoop(s, plan, sp, schema.relations, names[..n], Pass(edges, [])));
      }
    }
  }

  lemma RoutineReadyRuns(s: Session, plan: Plan, sp: SchemaPlan, open: Edges, edges: Edges, schema: Schema, name: Name,
                         p: Pass)
    requires Lasting(s, plan, open, edges) && Careful(s, plan, edges, p)
    requires name in schema.routines && RoutineReady(s, plan, sp, open, schema, name)
    ensures RoutineRuns(s, plan, SchemaAcl(plan, sp, schema.owner, schema.acl), p, schema.routines[name])
  {
    var owner := schema.routines[name].owner;
    TakeableRuns(s, plan, open, edges, p, owner);
    CarefulOwner(s, plan, edges, p, owner);
    CarefulStaysDirect(s, plan, edges, TakeOwner(s, p, owner));
    OwnEntryCreates(s.superusers, TakeOwner(s, p, owner).edges, plan.ddl,
      SchemaAcl(plan, sp, schema.owner, schema.acl));
  }

  lemma {:induction false} RoutinesReadyRun(s: Session, plan: Plan, sp: SchemaPlan, open: Edges, edges: Edges,
                                            schema: Schema, names: seq<Name>, p: Pass)
    requires Lasting(s, plan, open, edges) && Careful(s, plan, edges, p)
    requires forall name :: name in names ==> name in schema.routines && RoutineReady(s, plan, sp, open, schema, name)
    ensures RoutineLoopRuns(s, plan, SchemaAcl(plan, sp, schema.owner, schema.acl), schema.routines, names, p)
    decreases |names|
  {
    if names != [] {
      var n := |names| - 1;
      RoutinesReadyRun(s, plan, sp, open, edges, schema, names[..n], p);
      CarefulRoutines(s, plan, schema.routines, names[..n], edges, p);
      assert names[n] in names;
      RoutineReadyRuns(s, plan, sp, open, edges, schema, names[n], RoutineLoop(s, schema.routines, names[..n], p));
    }
  }

  lemma GrantReadyRuns(s: Session, plan: Plan, open: Edges, edges: Edges, owner: Role, acl: Acl)
    requires Lasting(s, plan, open, edges) && GrantReady(s, plan, Base(s, plan, open), owner, acl)
    ensures GrantRuns(s, edges, owner, acl)
  {
    var base := Base(s, plan, open);
    if owner == plan.ddl {
      DirectHas(s, edges, plan.ddl);
    } else if Counts(s, base, owner) {
      CountsActs(s, plan, open, edges, owner);
    } else {
      var g :| g in acl && acl[g] != {} && (g.Public? || Counts(s, base, g.role));
      if g.To? {
        CountsActs(s, plan, open, edges, g.role);
      }
    }
  }

  lemma SchemaReadyRuns(s: Session, plan: Plan, sp: SchemaPlan, scan: Scan, schema: Schema, open: Edges, edges: Edges)
    requires Enumerates(scan) && Lasting(s, plan, open, edges) && SchemaReady(s, plan, sp, open, schema)
    ensures BlockRuns(s, plan, sp, scan, schema, edges)
  {
    var after := EdgesAtGrants(s, plan, sp, scan, schema, edges);
    var managed, stray := scan(ManagedNames(schema)), scan(StrayRoutines(plan, schema));
    DirectHas(s, edges, plan.ddl);
    if schema.owner != plan.ddl {
      CountsActs(s, plan, open, edges, schema.owner);
    }
    RelationsReadyRun(s, plan, sp, open, edges, schema, managed);
    CarefulRelations(s, plan, sp, schema.relations, managed, edges);
    RoutinesReadyRun(s, plan, sp, open, edges, schema, stray,
      RelationLoop(s, plan, sp, schema.relations, managed, Pass(edges, [])));
    BlockLasts(s, plan, sp, scan, schema, open, edges);
    DirectHas(s, after, plan.ddl);
    GrantsReadyRun(s, plan, sp, schema, open, after);
  }

  lemma GrantsReadyRun(s: Session, plan: Plan, sp: SchemaPlan, schema: Schema, open: Edges, after: Edges)
    requires Lasting(s, plan, open, after) && SchemaReady(s, plan, sp, open, schema)
    ensures GrantsRun(s, after, plan, sp, schema)
  {
    forall name | name in schema.relations && Covered(schema.relations[name].kind)
      ensures var moved := Reassigned(plan, sp, schema.relations, name); GrantRuns(s, after, moved.owner, moved.acl)
    {
      var moved := Reassigned(plan, sp, schema.relations, name);
      GrantReadyRuns(s, plan, open, after, moved.owner, moved.acl);
    }
    forall name | name in schema.routines && FunctionsGranted(sp, schema.routines[name])
      ensures var moved := RoutineReassigned(plan, schema.routines[name]); GrantRuns(s, after, moved.owner, moved.acl)
    {
      var moved := RoutineReassigned(plan, schema.routines[name]);
      GrantReadyRuns(s, plan, open, after, moved.owner, moved.acl);
    }
  }

  lemma ClosingLasts(s: Session, plan: Plan, open: Edges, edges: Edges)
    requires Lasting(s, plan, open, edges) && Direct(s, open, plan.ddl) && CloseRuns(s, plan, open)
    ensures CloseRuns(s, plan, edges)
  {
    if plan.appMembership {
      MayGrantLasts(s, open, edges, plan.app);
      if Circular(edges, plan.ddl, plan.app) {
        JoinStaysOpen(s, plan, open, edges);
      }
    }
    if plan.searchPath.Some? {
      MayGrantLasts(s, Joined(plan, open), Joined(plan, edges), plan.ddl);
      MayGrantLasts(s, Joined(plan, open), Joined(plan, edges), plan.app);
    }
  }

  /** The app role's way to the DDL role, if it has one by way of the admin, was there from the start. */
  lemma JoinStaysOpen(s: Session, plan: Plan, open: Edges, edges: Edges)
    requires SameElsewhere(s, open, edges) && (s.admin, plan.ddl) in open && Circular(edges, plan.ddl, plan.app)
    ensures Circular(open, plan.ddl, plan.app)
  {
    var before, after := Links(open, IsMember), Links(edges, IsMember);
    ReachSplits(after, before, plan.app, plan.ddl, |after|, s.admin);
    if Reach(before, plan.app, plan.ddl, |after|) {
      ReachBound(before, plan.app, plan.ddl, |after|);
    } else {
      assert (s.admin, plan.ddl) in before && Reach(before, plan.ddl, plan.ddl, 0);
      assert Reach(before, s.admin, plan.ddl, 1);
      ReachThrough(before, plan.app, s.admin, plan.ddl, |after|, 1);
      ReachBound(before, plan.app, plan.ddl, |after| + 1);
    }
  }

  // ---- Main results ----

  /** From a ready catalog the script gets to its end, in whatever order the queries return their rows. */
  lemma ReadyFinishes(s: Session, plan: Plan, scan: Scan, c: Catalog)
    requires Enumerates(scan) && DistinctNames(plan.schemas) && Ready(s, plan, c)
    ensures Script(s, plan, scan, c) == Some(Bootstrapped(s, plan, scan, c))
  {
    var start := Opened(s, plan, c);
    OpenedEdges(s, plan, c);
    forall i | 0 <= i < |plan.schemas|
      ensures RunsAt(s, plan, plan.schemas, scan, start, i)
    {
      assert plan.schemas[i] in plan.schemas;
      BlocksLast(s, plan, plan.schemas[..i], scan, start);
      SchemaReadyRuns(s, plan, plan.schemas[i], scan, SchemaOrNew(s.admin, c.schemas, plan.schemas[i].name),
        start.catalog.edges, SchemaBlocks(s, plan, plan.schemas[..i], scan, start).catalog.edges);
    }
    BlocksRunEach(s, plan, plan.schemas, scan, start);
    BlocksLast(s, plan, plan.schemas, scan, start);
    ClosingLasts(s, plan, start.catalog.edges, SchemaBlocks(s, plan, plan.schemas, scan, start).catalog.edges);
  }

  lemma {:induction false} SuperuserRelations(s: Session, plan: Plan, sp: SchemaPlan, acl: Acl,
                                              relations: map<Name, Relation>, names: seq<Name>, p: Pass)
    requires s.admin in s.superusers
    requires forall name :: name in names ==> name in relations
    ensures RelationLoopRuns(s, plan, sp, acl, relations, names, p)
    decreases |names|
  {
    if names != [] {
      SuperuserRelations(s, plan, sp, acl, relations, names[..|names| - 1], p);
    }
  }

  lemma {:induction false} SuperuserRoutines(s: Session, plan: Plan, acl: Acl, routines: map<Name, Routine>,
                                             names: seq<Name>, p: Pass)
    requires s.admin in s.superusers
    requires forall name :: name in names ==> name in routines
    ensures RoutineLoopRuns(s, plan, acl, routines, names, p)
      <==> forall name :: name in names ==> routines[name].kind == Function
    decreases |names|
  {
    if names != [] {
      var n := |names| - 1;
      SuperuserRoutines(s, plan, acl, routines, names[..n], p);
      assert names == names[..n] + [names[n]];
      assert RoutineRuns(s, plan, acl, RoutineLoop(s, routines, names[..n], p), routines[names[n]])
        <==> routines[names[n]].kind == Function;
    }
  }

  lemma StrayByName(plan: Plan, scan: Scan, schema: Schema)
    requires Enumerates(scan)
    ensures var stray := scan(StrayRoutines(plan, schema));
      NoStrayProcedure(plan, schema) <==> forall name :: name in stray ==> schema.routines[name].kind == Function
  {
    var stray := scan(StrayRoutines(plan, schema));
    if forall name :: name in stray ==> schema.routines[name].kind == Function {
      forall name | name in schema.routines
        ensures !StrayProcedure(plan, schema, name)
      {
        assert name in StrayRoutines(plan, schema) ==> name in stray;
      }
    }
    if NoStrayProcedure(plan, schema) {
      forall name | name in stray
        ensures schema.routines[name].kind == Function
      {
        assert !StrayProcedure(plan, schema, name);
      }
    }
  }

  lemma SuperuserBlock(s: Session, plan: Plan, sp: SchemaPlan, scan: Scan, schema: Schema, edges: Edges)
    requires Enumerates(scan) && s.admin in s.superusers
    ensures BlockRuns(s, plan, sp, scan, schema, edges) <==> NoStrayProcedure(plan, schema)
  {
    var managed, stray := scan(ManagedNames(schema)), scan(StrayRoutines(plan, schema));
    var acl := SchemaAcl(plan, sp, schema.owner, schema.acl);
    SuperuserRelations(s, plan, sp, acl, schema.relations, managed, Pass(edges, []));
    SuperuserRoutines(s, plan, acl, schema.routines, stray,
      RelationLoop(s, plan, sp, schema.relations, managed, Pass(edges, [])));
    StrayByName(plan, scan, schema);
  }

  lemma SuperuserBlocks(s: Session, plan: Plan, blocks: seq<SchemaPlan>, scan: Scan, o: Outcome)
    requires Enumerates(scan) && DistinctNames(blocks) && s.admin in s.superusers
    ensures BlocksRun(s, plan, blocks, scan, o) <==> forall i :: 0 <= i < |blocks| ==>
      NoStrayProcedure(plan, SchemaOrNew(s.admin, o.catalog.schemas, blocks[i].name))
  {
    BlocksRunEach(s, plan, blocks, scan, o);
    forall i | 0 <= i < |blocks|
      ensures RunsAt(s, plan, blocks, scan, o, i)
        <==> NoStrayProcedure(plan, SchemaOrNew(s.admin, o.catalog.schemas, blocks[i].name))
    {
      SuperuserBlock(s, plan, blocks[i], scan, SchemaOrNew(s.admin, o.catalog.schemas, blocks[i].name),
        SchemaBlocks(s, plan, blocks[..i], scan, o).catalog.edges);
    }
  }

  lemma {:induction false} SuperuserTakesNothing(s: Session, plan: Plan, sp: SchemaPlan, schema: Schema,
                                                 names: seq<Name>, stray: seq<Name>, p: Pass)
    requires s.admin in s.superusers
    requires forall name :: name in names ==> name in schema.relations
    requires forall name :: name in stray ==> name in schema.routines
    ensures RelationLoop(s, plan, sp, schema.relations, names, p) == p
    ensures RoutineLoop(s, schema.routines, stray, p) == p
    decreases |names| + |stray|
  {
    if names != [] {
      SuperuserTakesNothing(s, plan, sp, schema, names[..|names| - 1], [], p);
    }
    if stray != [] {
      SuperuserTakesNothing(s, plan, sp, schema, [], stray[..|stray| - 1], p);
    }
  }

  lemma {:induction false} SuperuserKeepsEdges(s: Session, plan: Plan, blocks: seq<SchemaPlan>, scan: Scan, o: Outcome)
    requires Enumerates(scan) && s.admin in s.superusers
    ensures SchemaBlocks(s, plan, blocks, scan, o).catalog.edges == o.catalog.edges
    decreases |blocks|
  {
    if blocks != [] {
      var n := |blocks| - 1;
      var before := SchemaBlocks(s, plan, blocks[..n], scan, o);
      var schema := SchemaOrNew(s.admin, before.catalog.schemas, blocks[n].name);
      SuperuserKeepsEdges(s, plan, blocks[..n], scan, o);
      SuperuserTakesNothing(s, plan, blocks[n], schema, scan(ManagedNames(schema)), scan(StrayRoutines(plan, schema)),
        Pass(before.catalog.edges, []));
    }
  }

  lemma {:induction false} SuperuserEnsures(s: Session, c: Catalog, roles: seq<Role>)
    requires s.admin in s.superusers
    ensures EnsureRoles(s, c, roles).edges == c.edges
    decreases |roles|
  {
    if roles != [] {
      SuperuserEnsures(s, c, roles[..|roles| - 1]);
    }
  }

  /** The grant of the app role to the DDL role, where the contract has one, would close a circle. */
  predicate JoinIsCircular(plan: Plan, edges: Edges) {
    plan.appMembership && Circular(edges, plan.ddl, plan.app)
  }

  /**
    Run by a superuser, the script gets to its end if and only if no governed schema holds a stray procedure, and
    the app role, where the DDL role is to become its member, is not a member of that itself.
   */
  lemma SuperuserFinishesIff(s: Session, plan: Plan, scan: Scan, c: Catalog)
    requires Enumerates(scan) && DistinctNames(plan.schemas) && s.admin in s.superusers
    ensures Script(s, plan, scan, c) == Some(Bootstrapped(s, plan, scan, c))
      <==> NoStrayProcedures(s, plan, c) && !JoinIsCircular(plan, c.edges)
  {
    var start := Opened(s, plan, c);
    SuperuserOpens(s, plan, c);
    SuperuserRewrites(s, plan, scan, c);
    SuperuserKeepsEdges(s, plan, plan.schemas, scan, start);
    assert CloseRuns(s, plan, c.edges) <==> !JoinIsCircular(plan, c.edges);
  }

  lemma SuperuserRewrites(s: Session, plan: Plan, scan: Scan, c: Catalog)
    requires Enumerates(scan) && DistinctNames(plan.schemas) && s.admin in s.superusers
    ensures BlocksRun(s, plan, plan.schemas, scan, Opened(s, plan, c)) <==> NoStrayProcedures(s, plan, c)
  {
    OpenedEdges(s, plan, c);
    SuperuserBlocks(s, plan, plan.schemas, scan, Opened(s, plan, c));
    EachByIndex(s, plan, c);
  }

  lemma SuperuserOpens(s: Session, plan: Plan, c: Catalog)
    requires s.admin in s.superusers
    ensures OpenRuns(s, plan, c) && Opened(s, plan, c).catalog.edges == c.edges
  {
    SuperuserEnsures(s, c, [plan.ddl, plan.app]);
  }

  /** Whoever runs it: an app role that is the DDL role's member, other than through the admin, stops the script. */
  lemma CircularGrantStops(s: Session, plan: Plan, scan: Scan, c: Catalog, n: nat)
    requires Enumerates(scan) && plan.appMembership
    requires var links := Links(c.edges, IsMember); Reach(links - Leaving(links, s.admin), plan.app, plan.ddl, n)
    ensures Script(s, plan, scan, c) == None
  {
    var links := Links(c.edges, IsMember);
    var start := Opened(s, plan, c);
    var blocks := SchemaBlocks(s, plan, plan.schemas, scan, start);
    OpenedEdges(s, plan, c);
    BlocksReturn(s, plan, plan.schemas, scan, start);
    var later := Links(blocks.catalog.edges, IsMember);
    forall pair | pair in links - Leaving(links, s.admin)
      ensures pair in later
    {
      assert SameEdge(c.edges, start.catalog.edges, pair.0, pair.1);
      assert SameEdge(start.catalog.edges, blocks.catalog.edges, pair.0, pair.1);
    }
    ReachMonotone(links - Leaving(links, s.admin), later, plan.app, plan.ddl, n, n);
    ReachBound(later, plan.app, plan.ddl, n);
  }

  lemma EachByIndex(s: Session, plan: Plan, c: Catalog)
    ensures NoStrayProcedures(s, plan, c) <==> forall i :: 0 <= i < |plan.schemas| ==>
      NoStrayProcedure(plan, SchemaOrNew(s.admin, c.schemas, plan.schemas[i].name))
  {
    if NoStrayProcedures(s, plan, c) {
      forall i | 0 <= i < |plan.schemas|
        ensures NoStrayProcedure(plan, SchemaOrNew(s.admin, c.schemas, plan.schemas[i].name))
      {
        assert plan.schemas[i] in plan.schemas;
      }
    }
  }

  /** A finished script met no stray procedure, and acted for the DDL role at every grant. */
  lemma FinishedMeans(s: Session, plan: Plan, scan: Scan, c: Catalog)
    requires Enumerates(scan) && DistinctNames(plan.schemas) && Finishes(s, plan, scan, c)
    ensures NoStrayProcedures(s, plan, c)
    ensures forall i :: 0 <= i < |plan.schemas| ==> Acts(s, ScriptEdges(s, plan, scan, c)[i], plan.ddl)
  {
    var start := Opened(s, plan, c);
    OpenedEdges(s, plan, c);
    BlocksRunEach(s, plan, plan.schemas, scan, start);
    forall i | 0 <= i < |plan.schemas|
      ensures NoStrayProcedure(plan, SchemaOrNew(s.admin, c.schemas, plan.schemas[i].name))
      ensures Acts(s, ScriptEdges(s, plan, scan, c)[i], plan.ddl)
    {
      assert RunsAt(s, plan, plan.schemas, scan, start, i);
      GrantsAt(s, plan, plan.schemas, scan, start, i, SchemaBlocks(s, plan, plan.schemas[..i], scan, start));
      MetAsFound(s, plan, plan.schemas, scan, start, i);
      forall name | name in SchemaOrNew(s.admin, c.schemas, plan.schemas[i].name).routines
        ensures !StrayProcedure(plan, SchemaOrNew(s.admin, c.schemas, plan.schemas[i].name), name)
      {
        if StrayProcedure(plan, SchemaOrNew(s.admin, c.schemas, plan.schemas[i].name), name) {
          StrayProcedureStops(s, plan, scan, c, i, name);
        }
      }
    }
    EachByIndex(s, plan, c);
  }

  lemma GrantsAtLast(s: Session, plan: Plan, blocks: seq<SchemaPlan>, scan: Scan, o: Outcome, n: nat, before: Outcome)
    requires Enumerates(scan) && |blocks| == n + 1 && before == SchemaBlocks(s, plan, blocks[..n], scan, o)
    ensures GrantEdges(s, plan, blocks, scan, o)[n] == SchemaBlock(s, plan, blocks[n], scan, before).catalog.edges
  {}

  lemma GrantsBefore(s: Session, plan: Plan, blocks: seq<SchemaPlan>, scan: Scan, o: Outcome, n: nat, i: nat)
    requires Enumerates(scan) && i < n && |blocks| == n + 1
    ensures GrantEdges(s, plan, blocks, scan, o)[i] == GrantEdges(s, plan, blocks[..n], scan, o)[i]
  {}

  /** The memberships at the grants of block i are those its reassignment leaves. */
  lemma {:induction false} GrantsAt(s: Session, plan: Plan, blocks: seq<SchemaPlan>, scan: Scan, o: Outcome, i: nat,
                                    before: Outcome)
    requires Enumerates(scan) && i < |blocks| && before == SchemaBlocks(s, plan, blocks[..i], scan, o)
    ensures GrantEdges(s, plan, blocks, scan, o)[i] == SchemaBlock(s, plan, blocks[i], scan, before).catalog.edges
    decreases |blocks|
  {
    var n := |blocks| - 1;
    if i == n {
      GrantsAtLast(s, plan, blocks, scan, o, n, before);
    } else {
      assert blocks[..n][..i] == blocks[..i];
      GrantsAt(s, plan, blocks[..n], scan, o, i, before);
      GrantsBefore(s, plan, blocks, scan, o, n, i);
    }
  }
}
