/** The bootstrap as it runs: statements and PL/pgSQL loops updating the catalog in place, until one fails. */
module DbBootstrap {
  import opened Common
  import opened DbCatalog
  import opened DbContract
  import opened DbContractProofs
  import opened DbContractTheorems
  import opened DbStatements

  /** Every method says whether it got to its end, and what it did if it did. */
  class Database {
    const session: Session
    const scan: Scan
    var roles: set<Role>
    var edges: Edges
    var databaseAcl: Acl
    var searchPath: map<Role, seq<Name>>
    var schemas: map<Name, Schema>

    constructor (session: Session, scan: Scan, c: Catalog)
      ensures this.session == session && this.scan == scan && Contents() == c
    {
      this.session, this.scan := session, scan;
      roles, edges, databaseAcl, searchPath, schemas := c.roles, c.edges, c.databaseAcl, c.searchPath, c.schemas;
    }

    function Contents(): Catalog
      reads this
    {
      Catalog(roles, edges, databaseAcl, searchPath, schemas)
    }

    // ---- Roles and memberships ----

    method CreateRoleIfMissing(role: Role)
      modifies this`roles, this`edges
      ensures Contents() == EnsureRole(session, old(Contents()), role)
    {
      if role !in roles {
        roles := roles + {role};
        if session.pg16 && session.admin !in session.superusers {
          edges := edges[(session.admin, role) := Edge(true, false, false)];
        }
      }
    }

    method CreateRolesIfMissing(names: seq<Role>)
      modifies this`roles, this`edges
      ensures Contents() == EnsureRoles(session, old(Contents()), names)
    {
      for i := 0 to |names|
        invariant Contents() == EnsureRoles(session, old(Contents()), names[..i])
      {
        assert names[..i + 1][..i] == names[..i];
        CreateRoleIfMissing(names[i]);
      }
      assert names[..|names|] == names;
    }

    /** GRANT the role to the admin, with its options spelled out, and remember it. */
    method TakeMembership(role: Role, granted: seq<Role>) returns (more: seq<Role>, ok: bool)
      modifies this`edges
      ensures ok <==> MayTake(session, old(edges), role)
      ensures ok ==> Pass(edges, more) == Take(session, Pass(old(edges), granted), role)
      ensures !ok ==> edges == old(edges) && more == granted
    {
      ok, more := MayTake(session, edges, role), granted;
      if ok {
        edges := Granted(edges, session.admin, role);
        more := more + [role];
      }
    }

    /** The owner's membership, unless its privileges are already usable. */
    method TakeOwnerMembership(owner: Role, granted: seq<Role>) returns (more: seq<Role>, ok: bool)
      modifies this`edges
      ensures ok <==> TakeOwnerRuns(session, Pass(old(edges), granted), owner)
      ensures ok ==> Pass(edges, more) == TakeOwner(session, Pass(old(edges), granted), owner)
    {
      more, ok := granted, true;
      if owner != session.admin && !HasRole(session.superusers, edges, session.admin, owner, CanUse) {
        more, ok := TakeMembership(owner, granted);
      }
    }

    method TakeTargetMembership(target: Role, granted: seq<Role>) returns (more: seq<Role>, ok: bool)
      modifies this`edges
      ensures ok <==> TakeTargetRuns(session, Pass(old(edges), granted), target)
      ensures ok ==> Pass(edges, more) == TakeTarget(session, Pass(old(edges), granted), target)
    {
      more, ok := granted, true;
      if !(HasRole(session.superusers, edges, session.admin, target, CanUse)
           && HasRole(session.superusers, edges, session.admin, target, SetAbility(session))) {
        more, ok := TakeMembership(target, granted);
      }
    }

    /** _grant_membership_to_current_user, for the DDL role */
    method TakeDdlMembership(ddl: Role) returns (granted: seq<Role>, ok: bool)
      modifies this`edges
      ensures ok <==>
        TakeDdl(session, Pass(old(edges), []), ddl) == Pass(old(edges), []) || MayTake(session, old(edges), ddl)
      ensures ok ==> Pass(edges, granted) == TakeDdl(session, Pass(old(edges), []), ddl)
      ensures !ok ==> edges == old(edges) && granted == []
    {
      granted, ok := [], true;
      var needed :=
        if session.pg16
        then !(HasRole(session.superusers, edges, session.admin, ddl, CanUse)
               && HasRole(session.superusers, edges, session.admin, ddl, CanSet))
        else !HasRole(session.superusers, edges, session.admin, ddl, IsMember);
      if needed {
        granted, ok := TakeMembership(ddl, []);
      }
    }

    /** FOREACH g IN ARRAY granted */
    method ReturnMemberships(granted: seq<Role>)
      modifies this`edges
      ensures edges == GiveBack(session, old(edges), granted)
    {
      for i := 0 to |granted|
        invariant edges == GiveBack(session, old(edges), granted[..i])
      {
        assert granted[..i + 1][..i] == granted[..i];
        edges := Withdrawn(session.pg16, edges, session.admin, granted[i]);
      }
      assert granted[..|granted|] == granted;
    }

    // ---- The reassignment block ----

    /** One row of the relation loop: take what is missing, then change the owner. */
    method ReassignRelation(acl: Acl, owner: Role, target: Role, sofar: seq<Role>)
      returns (granted: seq<Role>, ok: bool)
      modifies this`edges
      ensures ok <==> RelationRuns(session, acl, Pass(old(edges), sofar), owner, target)
      ensures ok ==> Pass(edges, granted) == TakeForRelation(session, Pass(old(edges), sofar), owner, target)
    {
      granted, ok := sofar, true;
      if owner != target {
        granted, ok := TakeOwnerMembership(owner, granted);
        if ok {
          granted, ok := TakeTargetMembership(target, granted);
        }
        if ok {
          ok := MayOwn(session, edges, acl, target);
        }
      }
    }

    /** The relation loop; a table takes the sequences of its serial columns along. */
    method ReassignRelations(plan: Plan, sp: SchemaPlan, acl: Acl, names: seq<Name>, relations: map<Name, Relation>)
      returns (granted: seq<Role>, moved: map<Name, Relation>, ok: bool)
      requires forall name :: name in names <==> name in relations && Managed(relations[name])
      modifies this`edges
      ensures ok <==> RelationLoopRuns(session, plan, sp, acl, relations, names, Pass(old(edges), []))
      ensures ok ==> Pass(edges, granted) == RelationLoop(session, plan, sp, relations, names, Pass(old(edges), []))
      ensures ok ==> moved == map name | name in relations :: Reassigned(plan, sp, relations, name)
    {
      granted, moved, ok := [], relations, true;
      ghost var start := Pass(edges, []);
      for i := 0 to |names|
        invariant ok && RelationLoopRuns(session, plan, sp, acl, relations, names[..i], start)
        invariant Pass(edges, granted) == RelationLoop(session, plan, sp, relations, names[..i], start)
        invariant RelationsSofar(plan, sp, relations, names[..i], moved)
      {
        var name := names[i];
        assert name in names;
        RelationLoopSnoc(session, plan, sp, acl, relations, names, i, start);
        granted, ok := ReassignRelation(acl, relations[name].owner, Target(plan, sp, name), granted);
        if !ok {
          RelationLoopStops(session, plan, sp, acl, relations, names, i + 1, start);
          return;
        }
        ghost var before := moved;
        if relations[name].owner != Target(plan, sp, name) {
          moved := WithSequences(moved, name, Target(plan, sp, name));
        }
        RelationMoved(plan, sp, relations, names, i, before, moved);
      }
      assert names[..|names|] == names;
      AllMoved(plan, sp, relations, names, moved);
    }

    /** One row of the function loop. */
    method ReassignRoutine(plan: Plan, acl: Acl, r: Routine, sofar: seq<Role>) returns (granted: seq<Role>, ok: bool)
      modifies this`edges
      ensures ok <==> RoutineRuns(session, plan, acl, Pass(old(edges), sofar), r)
      ensures ok ==> Pass(edges, granted) == TakeOwner(session, Pass(old(edges), sofar), r.owner)
    {
      granted, ok := TakeOwnerMembership(r.owner, sofar);
      if ok {
        ok := r.kind == Function && HasRole(session.superusers, edges, session.admin, plan.ddl, SetAbility(session))
              && MayOwn(session, edges, acl, plan.ddl);
      }
    }

    /** The function loop: every function that is not the DDL role's becomes it; a procedure is an error. */
    method ReassignRoutines(plan: Plan, acl: Acl, names: seq<Name>, routines: map<Name, Routine>, sofar: seq<Role>)
      returns (granted: seq<Role>, moved: map<Name, Routine>, ok: bool)
      requires forall name :: name in names <==>
        name in routines && routines[name].owner != plan.ddl && !routines[name].extension
      modifies this`edges
      ensures ok <==> RoutineLoopRuns(session, plan, acl, routines, names, Pass(old(edges), sofar))
      ensures ok ==> Pass(edges, granted) == RoutineLoop(session, routines, names, Pass(old(edges), sofar))
      ensures ok ==> moved == map name | name in routines :: RoutineReassigned(plan, routines[name])
    {
      granted, moved, ok := sofar, routines, true;
      ghost var start := Pass(edges, sofar);
      for i := 0 to |names|
        invariant ok && RoutineLoopRuns(session, plan, acl, routines, names[..i], start)
        invariant Pass(edges, granted) == RoutineLoop(session, routines, names[..i], start)
        invariant RoutinesSofar(plan, routines, names[..i], moved)
      {
        var name := names[i];
        assert name in names;
        RoutineLoopSnoc(session, plan, acl, routines, names, i, start);
        granted, ok := ReassignRoutine(plan, acl, routines[name], granted);
        if !ok {
          RoutineLoopStops(session, plan, acl, routines, names, i + 1, start);
          return;
        }
        ghost var before := moved;
        moved := moved[name := RoutineReassigned(plan, moved[name])];
        RoutineMoved(plan, routines, names, i, before, moved);
      }
      assert names[..|names|] == names;
      AllRoutinesMoved(plan, routines, names, moved);
    }

    /** _reassign_schema_objects: one DO block, which takes effect as a whole or not at all. */
    method ReassignSchemaObjects(plan: Plan, sp: SchemaPlan, schema: Schema)
      returns (relations: map<Name, Relation>, routines: map<Name, Routine>, granted: seq<Role>, ok: bool)
      requires Enumerates(scan)
      modifies this`edges
      ensures ok <==> ReassignRuns(session, plan, sp, scan, schema, old(edges))
      ensures ok ==> relations == map name | name in schema.relations :: Reassigned(plan, sp, schema.relations, name)
      ensures ok ==> routines == map name | name in schema.routines :: RoutineReassigned(plan, schema.routines[name])
      ensures ok ==> granted == ReassignTakes(session, plan, sp, scan, schema, old(edges)).granted
      ensures ok ==> edges == EdgesAtGrants(session, plan, sp, scan, schema, old(edges))
      ensures !ok ==> edges == old(edges) && granted == []
    {
      var before, acl := edges, SchemaAcl(plan, sp, schema.owner, schema.acl);
      routines := schema.routines;
      granted, relations, ok := ReassignRelations(plan, sp, acl, scan(ManagedNames(schema)), schema.relations);
      if ok {
        granted, routines, ok :=
          ReassignRoutines(plan, acl, scan(StrayRoutines(plan, schema)), schema.routines, granted);
      }
      if !ok {
        edges, granted := before, [];
        return;
      }
      ReturnMemberships(granted);
    }

    // ---- The grants of one schema ----

    /** The schema's own privileges, statement by statement. */
    method GrantOnSchema(plan: Plan, sp: SchemaPlan, owner: Role, before: Acl) returns (acl: Acl)
      ensures acl == SchemaAcl(plan, sp, owner, before)
    {
      acl := OwnerMoved(before, owner, plan.ddl);
      acl := Revoke(acl, Public, {Create});
      acl := Grant(acl, To(plan.app), {Usage});
      if sp.appCanCreate {
        acl := Grant(acl, To(plan.app), {Create});
      } else {
        acl := Revoke(acl, To(plan.app), {Create});
      }
      acl := GrantEach(acl, plan.readers, {Usage});
    }

    /** The statements on tables and sequences, one after the other. */
    method GrantOnRelations(gs: seq<RelationGrant>, relations: map<Name, Relation>)
      returns (after: map<Name, Relation>, ok: bool)
      ensures ok <==> AllRunOn(session, edges, gs, relations)
      ensures ok ==> after == RelationsGranted(session, edges, gs, relations)
    {
      after, ok := relations, true;
      assert RelationsGranted(session, edges, gs[..0], relations) == relations;
      for i := 0 to |gs|
        invariant ok && AllRunOn(session, edges, gs[..i], relations)
        invariant after == RelationsGranted(session, edges, gs[..i], relations)
      {
        OneMoreGrant(session, edges, gs, i, relations, after);
        ok := GrantRunsOn(session, edges, gs[i], after);
        if !ok {
          assert gs[i] in gs;
          return;
        }
        after := RelationsGranted(session, edges, [gs[i]], after);
      }
      assert gs[..|gs|] == gs;
    }

    /** GRANT EXECUTE ON ALL FUNCTIONS, where the contract has it */
    method GrantOnFunctions(plan: Plan, sp: SchemaPlan, routines: map<Name, Routine>)
      returns (after: map<Name, Routine>, ok: bool)
      ensures ok <==> forall name :: name in routines && FunctionsGranted(sp, routines[name]) ==>
        GrantRuns(session, edges, routines[name].owner, routines[name].acl)
      ensures ok ==> after == map name | name in routines :: FunctionGranted(session, edges, plan, sp, routines[name])
    {
      ok := forall name :: name in routines && FunctionsGranted(sp, routines[name]) ==>
        GrantRuns(session, edges, routines[name].owner, routines[name].acl);
      after := map name | name in routines :: FunctionGranted(session, edges, plan, sp, routines[name]);
    }

    /** ALTER DEFAULT PRIVILEGES, statement by statement. */
    method AlterDefaults(plan: Plan, sp: SchemaPlan, before: Defaults) returns (defaults: Defaults)
      ensures defaults == DefaultsAfter(session.admin, plan, sp, before)
    {
      defaults := GrantDefault(before, plan.ddl, OnTables, plan.app, sp.tablePrivileges);
      defaults := GrantDefault(defaults, plan.ddl, OnSequences, plan.app, sp.sequencePrivileges);
      if sp.functionPrivileges != {} {
        defaults := GrantDefault(defaults, plan.ddl, OnFunctions, plan.app, sp.functionPrivileges);
      }
      if sp.retiresAdminDefaults {
        defaults := RevokeDefault(defaults, session.admin, OnTables, plan.app);
        defaults := RevokeDefault(defaults, session.admin, OnSequences, plan.app);
      }
      defaults := GrantReaderDefaults(plan, defaults);
    }

    method GrantReaderDefaults(plan: Plan, before: Defaults) returns (defaults: Defaults)
      ensures defaults == GrantDefaultEach(before, plan.ddl, OnTables, plan.readers, {Select})
    {
      defaults := before;
      for i := 0 to |plan.readers|
        invariant defaults == GrantDefaultEach(before, plan.ddl, OnTables, plan.readers[..i], {Select})
      {
        assert plan.readers[..i + 1][..i] == plan.readers[..i];
        defaults := GrantDefault(defaults, plan.ddl, OnTables, plan.readers[i], {Select});
      }
      assert plan.readers[..|plan.readers|] == plan.readers;
    }

    /** The grants on what the schema holds, and on what it will hold. */
    method GrantOnContents(plan: Plan, sp: SchemaPlan, schema: Schema, relations: map<Name, Relation>,
                           routines: map<Name, Routine>)
      returns (after: Schema, ok: bool)
      requires relations == map name | name in schema.relations :: Reassigned(plan, sp, schema.relations, name)
      requires routines == map name | name in schema.routines :: RoutineReassigned(plan, schema.routines[name])
      ensures ok <==> GrantsRun(session, edges, plan, sp, schema) && Acts(session, edges, plan.ddl)
      ensures ok ==> after == SchemaAfter(session, edges, plan, sp, schema)
    {
      ContentsRunIff(session, edges, plan, sp, schema, relations, routines);
      after := schema;
      var grantedRelations, grantedRoutines;
      grantedRelations, ok := GrantOnRelations(RelationGrants(plan, sp), relations);
      if !ok {
        return;
      }
      grantedRoutines, ok := GrantOnFunctions(plan, sp, routines);
      if !ok || !Acts(session, edges, plan.ddl) {
        return after, false;
      }
      var acl := GrantOnSchema(plan, sp, schema.owner, schema.acl);
      var defaults := AlterDefaults(plan, sp, schema.defaults);
      after := Schema(plan.ddl, acl, grantedRelations, grantedRoutines, defaults);
      ContentsGranted(session, edges, plan, sp, schema, relations, routines);
    }

    /** CREATE SCHEMA IF NOT EXISTS */
    method CreateSchemaIfMissing(name: Name) returns (schema: Schema)
      modifies this`schemas
      ensures schema == SchemaOrNew(session.admin, old(schemas), name)
      ensures schemas == old(schemas)[name := schema]
    {
      if name !in schemas {
        var created := Schema(session.admin, map[To(session.admin) := {Usage, Create}], map[], map[], map[]);
        schemas := schemas[name := created];
      }
      schema := schemas[name];
    }

    /** _schema_grants, and the schema part of the shared script, on a schema that exists. */
    method RewriteSchema(plan: Plan, sp: SchemaPlan, before: Schema)
      returns (granted: seq<Role>, after: Schema, ok: bool)
      requires Enumerates(scan)
      modifies this`edges
      ensures ok <==> BlockRuns(session, plan, sp, scan, before, old(edges))
      ensures ok ==> edges == EdgesAtGrants(session, plan, sp, scan, before, old(edges))
      ensures ok ==> granted == ReassignTakes(session, plan, sp, scan, before, old(edges)).granted
      ensures ok ==> after == SchemaAfter(session, edges, plan, sp, before)
      ensures GivenBack(session, old(edges), edges, granted)
    {
      granted, after, ok := [], before, SchemaTaken(session, plan, before, edges);
      if !ok {
        return;
      }
      var relations, routines;
      relations, routines, granted, ok := ReassignSchemaObjects(plan, sp, before);
      if ok {
        TakesReturn(session, plan, sp, scan, before, old(edges));
        after, ok := GrantOnContents(plan, sp, before, relations, routines);
      }
    }

    method SchemaGrants(plan: Plan, sp: SchemaPlan, ghost everGranted: seq<Role>) returns (granted: seq<Role>, ok: bool)
      requires Enumerates(scan)
      modifies this`schemas, this`edges
      ensures ok <==> BlockRuns(session, plan, sp, scan, SchemaOrNew(session.admin, old(schemas), sp.name), old(edges))
      ensures ok ==>
        SchemaBlock(session, plan, sp, scan, Outcome(old(Contents()), everGranted))
          == Outcome(Contents(), everGranted + granted)
      ensures GivenBack(session, old(edges), edges, granted)
    {
      ghost var start := Outcome(Contents(), everGranted);
      var before := CreateSchemaIfMissing(sp.name);
      var after;
      granted, after, ok := RewriteSchema(plan, sp, before);
      if ok {
        schemas := schemas[sp.name := after];
        BlockIs(session, plan, sp, scan, start, Outcome(Contents(), everGranted + granted), before, after, granted);
      }
    }

    // ---- The whole script ----

    /** The grants on the database. */
    method GrantOnDatabase(plan: Plan)
      modifies this`databaseAcl
      ensures databaseAcl == DatabaseAcl(plan, old(databaseAcl))
    {
      databaseAcl := Grant(databaseAcl, To(plan.ddl), {Connect, Create});
      databaseAcl := Grant(databaseAcl, To(plan.app), {Connect});
      databaseAcl := Revoke(databaseAcl, To(plan.app), {Create});
      ghost var connected := databaseAcl;
      for i := 0 to |plan.readers|
        invariant databaseAcl == GrantEach(connected, plan.readers[..i], {Connect})
      {
        assert plan.readers[..i + 1][..i] == plan.readers[..i];
        databaseAcl := Grant(databaseAcl, To(plan.readers[i]), {Connect});
      }
      assert plan.readers[..|plan.readers|] == plan.readers;
    }

    method Open(plan: Plan) returns (everGranted: seq<Role>, ok: bool)
      modifies this`roles, this`edges, this`databaseAcl
      ensures ok <==> OpenRuns(session, plan, old(Contents()))
      ensures ok ==> Outcome(Contents(), everGranted) == Opened(session, plan, old(Contents()))
      ensures !ok ==> Halted(session, plan, old(Contents()), Contents(), everGranted)
    {
      ghost var start := Contents();
      CreateRolesIfMissing([plan.ddl, plan.app]);
      ghost var ensured := Contents();
      everGranted, ok := TakeDdlMembership(plan.ddl);
      if !ok {
        HaltedOpening(session, plan, start);
      } else {
        GrantOnDatabase(plan);
        OpenedIs(session, plan, start, ensured, Pass(edges, everGranted), Outcome(Contents(), everGranted));
      }
    }

    /** GRANT app TO ddl */
    method JoinRoles(plan: Plan) returns (ok: bool)
      requires plan.appMembership
      modifies this`edges
      ensures ok <==> JoinRuns(session, plan, old(edges))
      ensures edges == if ok then Joined(plan, old(edges)) else old(edges)
    {
      ok := MayGrant(session, edges, plan.app) && !Circular(edges, plan.ddl, plan.app);
      if ok && (plan.ddl, plan.app) !in edges {
        edges := edges[(plan.ddl, plan.app) := Edge(false, true, true)];
      }
    }

    /** ALTER ROLE .. SET search_path, for both roles */
    method SetPaths(plan: Plan) returns (ok: bool)
      requires plan.searchPath.Some?
      modifies this`searchPath
      ensures ok <==> PathsRun(session, plan, edges)
      ensures ok ==> var path := [plan.searchPath.value, "public"];
        searchPath == old(searchPath)[plan.ddl := path][plan.app := path]
    {
      ok := MayGrant(session, edges, plan.ddl);
      if !ok {
        return;
      }
      searchPath := searchPath[plan.ddl := [plan.searchPath.value, "public"]];
      ok := MayGrant(session, edges, plan.app);
      if !ok {
        return;
      }
      searchPath := searchPath[plan.app := [plan.searchPath.value, "public"]];
    }

    method Close(plan: Plan, ghost everGranted: seq<Role>) returns (ok: bool)
      modifies this
      ensures ok <==> CloseRuns(session, plan, old(edges))
      ensures ok ==> Outcome(Contents(), everGranted) == Closed(session, plan, Outcome(old(Contents()), everGranted))
      ensures !ok ==> roles == old(roles) && (edges == old(edges) || edges == Joined(plan, old(edges)))
    {
      ok := true;
      if plan.appMembership {
        ok := JoinRoles(plan);
      }
      if ok && plan.searchPath.Some? {
        ok := SetPaths(plan);
      }
      if !ok {
        return;
      }
      CreateRolesIfMissing(plan.readers);
      edges := Withdrawn(session.pg16, edges, session.admin, plan.app);
      edges := Withdrawn(session.pg16, edges, session.admin, plan.ddl);
    }

    /**
      The whole script: it gets to its end exactly when its specification does, and then leaves what that says.
      `everGranted` lists the roles whose membership the admin was granted on the way. Wherever the script stops,
      the admin keeps nothing usable of these but the DDL role's.
     */
    method Bootstrap(plan: Plan) returns (everGranted: seq<Role>, ok: bool)
      requires Enumerates(scan)
      modifies this
      ensures ok <==> Finishes(session, plan, scan, old(Contents()))
      ensures ok ==> Script(session, plan, scan, old(Contents())) == Some(Outcome(Contents(), everGranted))
      ensures !ok && session.admin != plan.ddl ==> Halted(session, plan, old(Contents()), Contents(), everGranted)
    {
      everGranted, ok := Open(plan);
      if !ok {
        return;
      }
      everGranted, ok := RunBlocks(plan, everGranted);
      ghost var reached := Outcome(Contents(), everGranted);
      if !ok {
        HaltedInBlocks(session, plan, old(Contents()), reached);
        return;
      }
      ok := Close(plan, everGranted);
      if !ok && session.admin != plan.ddl {
        HaltedClosing(session, plan, old(Contents()), reached, Contents());
      }
    }

    /** The blocks of the governed schemas, in order. Wherever they stop, what they took is given back. */
    method RunBlocks(plan: Plan, taken: seq<Role>) returns (everGranted: seq<Role>, ok: bool)
      requires Enumerates(scan)
      modifies this`schemas, this`edges
      ensures ok <==> BlocksRun(session, plan, plan.schemas, scan, Outcome(old(Contents()), taken))
      ensures ok ==>
        SchemaBlocks(session, plan, plan.schemas, scan, Outcome(old(Contents()), taken))
          == Outcome(Contents(), everGranted)
      ensures Returned(session, Outcome(old(Contents()), taken), Outcome(Contents(), everGranted))
    {
      everGranted, ok := taken, true;
      ghost var begun := Outcome(Contents(), taken);
      for i := 0 to |plan.schemas|
        invariant ok && BlocksRun(session, plan, plan.schemas[..i], scan, begun)
        invariant Outcome(Contents(), everGranted) == SchemaBlocks(session, plan, plan.schemas[..i], scan, begun)
        invariant Returned(session, begun, Outcome(Contents(), everGranted))
      {
        BlocksSnoc(session, plan, plan.schemas, scan, begun, i);
        ghost var sofar := Outcome(Contents(), everGranted);
        var granted;
        granted, ok := SchemaGrants(plan, plan.schemas[i], everGranted);
        everGranted := everGranted + granted;
        ReturnedAfter(session, begun, sofar, Contents(), granted);
        if !ok {
          BlocksStop(session, plan, plan.schemas, scan, begun, i + 1);
          return;
        }
      }
      assert plan.schemas[..|plan.schemas|] == plan.schemas;
    }
  }

  lemma ReturnedAfter(s: Session, begun: Outcome, sofar: Outcome, after: Catalog, granted: seq<Role>)
    requires Returned(s, begun, sofar) && GivenBack(s, sofar.catalog.edges, after.edges, granted)
    ensures Returned(s, begun, Outcome(after, sofar.everGranted + granted))
  {
    var reached := Outcome(after, sofar.everGranted + granted);
    assert reached.everGranted[|sofar.everGranted|..] == granted;
    ReturnedTwice(s, begun, sofar, reached);
  }

  lemma HaltedInBlocks(s: Session, plan: Plan, c: Catalog, reached: Outcome)
    requires Returned(s, Opened(s, plan, c), reached) && reached.catalog.roles == Opened(s, plan, c).catalog.roles
    ensures Halted(s, plan, c, reached.catalog, reached.everGranted)
  {
    HaltedLater(s, plan, c, reached, reached.catalog, []);
    assert reached.everGranted + [] == reached.everGranted;
  }

  // ---- The loops, step by step ----

  lemma RelationLoopSnoc(s: Session, plan: Plan, sp: SchemaPlan, acl: Acl, relations: map<Name, Relation>,
                         names: seq<Name>, i: nat, p: Pass)
    requires i < |names| && forall name :: name in names ==> name in relations
    ensures var sofar := RelationLoop(s, plan, sp, relations, names[..i], p);
      var owner, target := relations[names[i]].owner, Target(plan, sp, names[i]);
      && RelationLoop(s, plan, sp, relations, names[..i + 1], p) == TakeForRelation(s, sofar, owner, target)
      && (RelationLoopRuns(s, plan, sp, acl, relations, names[..i + 1], p) <==>
          RelationLoopRuns(s, plan, sp, acl, relations, names[..i], p) && RelationRuns(s, acl, sofar, owner, target))
  {
    assert names[..i + 1][..i] == names[..i];
  }

  /** A loop that stops does not get to its end. */
  lemma {:induction false} RelationLoopStops(s: Session, plan: Plan, sp: SchemaPlan, acl: Acl,
                                             relations: map<Name, Relation>, names: seq<Name>, i: nat, p: Pass)
    requires i <= |names| && forall name :: name in names ==> name in relations
    requires !RelationLoopRuns(s, plan, sp, acl, relations, names[..i], p)
    ensures !RelationLoopRuns(s, plan, sp, acl, relations, names, p)
    decreases |names| - i
  {
    if i < |names| {
      RelationLoopSnoc(s, plan, sp, acl, relations, names, i, p);
      RelationLoopStops(s, plan, sp, acl, relations, names, i + 1, p);
    } else {
      assert names[..i] == names;
    }
  }

  lemma RoutineLoopSnoc(s: Session, plan: Plan, acl: Acl, routines: map<Name, Routine>, names: seq<Name>, i: nat,
                        p: Pass)
    requires i < |names| && forall name :: name in names ==> name in routines
    ensures var sofar := RoutineLoop(s, routines, names[..i], p);
      && RoutineLoop(s, routines, names[..i + 1], p) == TakeOwner(s, sofar, routines[names[i]].owner)
      && (RoutineLoopRuns(s, plan, acl, routines, names[..i + 1], p) <==>
          RoutineLoopRuns(s, plan, acl, routines, names[..i], p)
          && RoutineRuns(s, plan, acl, sofar, routines[names[i]]))
  {
    assert names[..i + 1][..i] == names[..i];
  }

  lemma {:induction false} RoutineLoopStops(s: Session, plan: Plan, acl: Acl, routines: map<Name, Routine>,
                                            names: seq<Name>, i: nat, p: Pass)
    requires i <= |names| && forall name :: name in names ==> name in routines
    requires !RoutineLoopRuns(s, plan, acl, routines, names[..i], p)
    ensures !RoutineLoopRuns(s, plan, acl, routines, names, p)
    decreases |names| - i
  {
    if i < |names| {
      RoutineLoopSnoc(s, plan, acl, routines, names, i, p);
      RoutineLoopStops(s, plan, acl, routines, names, i + 1, p);
    } else {
      assert names[..i] == names;
    }
  }

  // ---- What the loops have moved ----

  /** ALTER TABLE .. OWNER TO moves the table and the sequences of its serial columns. */
  function WithSequences(relations: map<Name, Relation>, table: Name, owner: Role): map<Name, Relation> {
    map name | name in relations ::
      if name == table || (!Managed(relations[name]) && relations[name].serial == Some(table))
      then Reowned(relations[name], owner) else relations[name]
  }

  /** The owner of a relation once these names are done. */
  function OwnerSofar(plan: Plan, sp: SchemaPlan, relations: map<Name, Relation>, done: seq<Name>, name: Name): Role
    requires name in relations
  {
    var r := relations[name];
    if Managed(r) then (if name in done then Target(plan, sp, name) else r.owner)
    else if r.serial.Some? && r.serial.value in done && r.serial.value in relations
      && Moves(plan, sp, relations, r.serial.value)
    then Target(plan, sp, r.serial.value)
    else r.owner
  }

  ghost predicate RelationsSofar(plan: Plan, sp: SchemaPlan, relations: map<Name, Relation>, done: seq<Name>,
                                 moved: map<Name, Relation>) {
    && moved.Keys == relations.Keys
    && forall name :: name in relations ==>
         moved[name] == Reowned(relations[name], OwnerSofar(plan, sp, relations, done, name))
  }

  ghost predicate RoutinesSofar(plan: Plan, routines: map<Name, Routine>, done: seq<Name>, moved: map<Name, Routine>) {
    && moved.Keys == routines.Keys
    && forall name :: name in routines ==>
         moved[name] == if name in done then RoutineReassigned(plan, routines[name]) else routines[name]
  }

  lemma RelationMoved(plan: Plan, sp: SchemaPlan, relations: map<Name, Relation>, names: seq<Name>, i: nat,
                      before: map<Name, Relation>, after: map<Name, Relation>)
    requires i < |names| && names[i] in relations && Managed(relations[names[i]])
    requires RelationsSofar(plan, sp, relations, names[..i], before)
    requires after
      == if Moves(plan, sp, relations, names[i]) then WithSequences(before, names[i], Target(plan, sp, names[i]))
                      else before
    ensures RelationsSofar(plan, sp, relations, names[..i + 1], after)
  {
    assert names[..i + 1] == names[..i] + [names[i]];
    forall name | name in relations
      ensures after[name] == Reowned(relations[name], OwnerSofar(plan, sp, relations, names[..i + 1], name))
    {
      OneMoved(plan, sp, relations, names, i, before, after, name);
    }
  }

  lemma OneMoved(plan: Plan, sp: SchemaPlan, relations: map<Name, Relation>, names: seq<Name>, i: nat,
                 before: map<Name, Relation>, after: map<Name, Relation>, name: Name)
    requires i < |names| && names[i] in relations && Managed(relations[names[i]]) && name in relations
    requires RelationsSofar(plan, sp, relations, names[..i], before)
    requires after
      == if Moves(plan, sp, relations, names[i]) then WithSequences(before, names[i], Target(plan, sp, names[i]))
                      else before
    ensures after[name] == Reowned(relations[name], OwnerSofar(plan, sp, relations, names[..i + 1], name))
  {
    var r, done, next := relations[name], names[..i], names[i];
    assert before[name] == Reowned(r, OwnerSofar(plan, sp, relations, done, name));
    assert names[..i + 1] == done + [next];
    assert forall x :: x in done + [next] <==> x in done || x == next;
    if Managed(r) {
      assert name != next ==> after[name] == before[name];
    } else if r.serial != Some(next) {
      assert after[name] == before[name];
    }
  }

  lemma AllMoved(plan: Plan, sp: SchemaPlan, relations: map<Name, Relation>, names: seq<Name>,
                 moved: map<Name, Relation>)
    requires forall name :: name in names <==> name in relations && Managed(relations[name])
    requires RelationsSofar(plan, sp, relations, names, moved)
    ensures moved == map name | name in relations :: Reassigned(plan, sp, relations, name)
  {
    forall name | name in relations
      ensures OwnerSofar(plan, sp, relations, names, name) == OwnerAfter(plan, sp, relations, name)
    {}
  }

  lemma RoutineMoved(plan: Plan, routines: map<Name, Routine>, names: seq<Name>, i: nat,
                     before: map<Name, Routine>, after: map<Name, Routine>)
    requires i < |names| && names[i] in routines
    requires RoutinesSofar(plan, routines, names[..i], before)
    requires after == before[names[i] := RoutineReassigned(plan, before[names[i]])]
    ensures RoutinesSofar(plan, routines, names[..i + 1], after)
  {
    assert names[..i + 1] == names[..i] + [names[i]];
  }

  lemma AllRoutinesMoved(plan: Plan, routines: map<Name, Routine>, names: seq<Name>, moved: map<Name, Routine>)
    requires forall name :: name in names <==>
      name in routines && routines[name].owner != plan.ddl && !routines[name].extension
    requires RoutinesSofar(plan, routines, names, moved)
    ensures moved == map name | name in routines :: RoutineReassigned(plan, routines[name])
  {}

  // ---- The grants ----

  function FunctionGranted(s: Session, edges: Edges, plan: Plan, sp: SchemaPlan, r: Routine): Routine {
    if FunctionsGranted(sp, r) && Acts(s, edges, r.owner)
    then r.(acl := Grant(r.acl, To(plan.app), sp.functionPrivileges))
    else r
  }

  /** The statements run on the reassigned objects exactly when the contract's grants do. */
  lemma ContentsRunIff(s: Session, edges: Edges, plan: Plan, sp: SchemaPlan, schema: Schema,
                       relations: map<Name, Relation>, routines: map<Name, Routine>)
    requires relations == map name | name in schema.relations :: Reassigned(plan, sp, schema.relations, name)
    requires routines == map name | name in schema.routines :: RoutineReassigned(plan, schema.routines[name])
    ensures GrantsRun(s, edges, plan, sp, schema) <==>
      && AllRunOn(s, edges, RelationGrants(plan, sp), relations)
      && forall name :: name in routines && FunctionsGranted(sp, routines[name]) ==>
           GrantRuns(s, edges, routines[name].owner, routines[name].acl)
  {
    AllRunIff(s, edges, plan, sp, relations);
    RelationsRunIff(s, edges, plan, sp, schema, relations);
    forall name | name in schema.routines
      ensures FunctionsGranted(sp, routines[name]) <==> FunctionsGranted(sp, schema.routines[name])
    {
      assert routines[name] == RoutineReassigned(plan, schema.routines[name]);
    }
  }

  lemma RelationsRunIff(s: Session, edges: Edges, plan: Plan, sp: SchemaPlan, schema: Schema,
                        relations: map<Name, Relation>)
    requires relations == map name | name in schema.relations :: Reassigned(plan, sp, schema.relations, name)
    ensures
      (forall name :: name in schema.relations && Covered(schema.relations[name].kind) ==>
        var moved := Reassigned(plan, sp, schema.relations, name); GrantRuns(s, edges, moved.owner, moved.acl))
      <==>
      (forall name :: name in relations && Covered(relations[name].kind) ==>
        GrantRuns(s, edges, relations[name].owner, relations[name].acl))
  {
    forall name | name in schema.relations
      ensures Covered(relations[name].kind) <==> Covered(schema.relations[name].kind)
    {
      assert relations[name] == Reassigned(plan, sp, schema.relations, name);
    }
  }

  lemma ContentsGranted(s: Session, edges: Edges, plan: Plan, sp: SchemaPlan, schema: Schema,
                        relations: map<Name, Relation>, routines: map<Name, Routine>)
    requires relations == map name | name in schema.relations :: Reassigned(plan, sp, schema.relations, name)
    requires routines == map name | name in schema.routines :: RoutineReassigned(plan, schema.routines[name])
    ensures RelationsGranted(s, edges, RelationGrants(plan, sp), relations)
      == RelationsAfter(s, edges, plan, sp, schema.relations)
    ensures (map name | name in routines :: FunctionGranted(s, edges, plan, sp, routines[name]))
      == RoutinesAfter(s, edges, plan, sp, schema.routines)
  {
    AllGranted(s, edges, plan, sp, schema.relations, relations);
  }

  // ---- The blocks ----

  lemma BlockIs(s: Session, plan: Plan, sp: SchemaPlan, scan: Scan, before: Outcome, after: Outcome,
                schema: Schema, rewritten: Schema, granted: seq<Role>)
    requires Enumerates(scan)
    requires schema == SchemaOrNew(s.admin, before.catalog.schemas, sp.name)
    requires after.catalog.edges == EdgesAtGrants(s, plan, sp, scan, schema, before.catalog.edges)
    requires granted == ReassignTakes(s, plan, sp, scan, schema, before.catalog.edges).granted
    requires rewritten == SchemaAfter(s, after.catalog.edges, plan, sp, schema)
    requires after.catalog == before.catalog.(schemas := after.catalog.schemas, edges := after.catalog.edges)
    requires after.catalog.schemas == before.catalog.schemas[sp.name := schema][sp.name := rewritten]
    requires after.everGranted == before.everGranted + granted
    ensures after == SchemaBlock(s, plan, sp, scan, before)
  {
    assert before.catalog.schemas[sp.name := schema][sp.name := rewritten]
      == before.catalog.schemas[sp.name := rewritten];
  }

  lemma OpenedIs(s: Session, plan: Plan, start: Catalog, ensured: Catalog, p: Pass, after: Outcome)
    requires ensured == EnsureRoles(s, start, [plan.ddl, plan.app])
    requires p == TakeDdl(s, Pass(ensured.edges, []), plan.ddl)
    requires after
      == Outcome(ensured.(edges := p.edges, databaseAcl := DatabaseAcl(plan, ensured.databaseAcl)), p.granted)
    ensures after == Opened(s, plan, start)
  {
    EnsureRolesEdges(s, start, [plan.ddl, plan.app]);
  }

  lemma BlocksSnoc(s: Session, plan: Plan, schemas: seq<SchemaPlan>, scan: Scan, o: Outcome, i: nat)
    requires Enumerates(scan) && i < |schemas|
    ensures var before := SchemaBlocks(s, plan, schemas[..i], scan, o);
      && SchemaBlocks(s, plan, schemas[..i + 1], scan, o) == SchemaBlock(s, plan, schemas[i], scan, before)
      && (BlocksRun(s, plan, schemas[..i + 1], scan, o) <==>
            && BlocksRun(s, plan, schemas[..i], scan, o)
            && BlockRuns(s, plan, schemas[i], scan, SchemaOrNew(s.admin, before.catalog.schemas, schemas[i].name),
                         before.catalog.edges))
  {
    assert schemas[..i + 1][..i] == schemas[..i];
  }

  lemma {:induction false} BlocksStop(s: Session, plan: Plan, schemas: seq<SchemaPlan>, scan: Scan, o: Outcome, i: nat)
    requires Enumerates(scan) && i <= |schemas| && !BlocksRun(s, plan, schemas[..i], scan, o)
    ensures !BlocksRun(s, plan, schemas, scan, o)
    decreases |schemas| - i
  {
    if i < |schemas| {
      BlocksSnoc(s, plan, schemas, scan, o, i);
      BlocksStop(s, plan, schemas, scan, o, i + 1);
    } else {
      assert schemas[..i] == schemas;
    }
  }
}
