/** What the rendered bootstrap does to a catalog, and what the rendered verification asks of one (db_contract.py). */
module DbContract {
  import opened Common
  import opened DbCatalog

  /** One governed schema, for either shape of contract. */
  datatype SchemaPlan = SchemaPlan(
    name: Name,
    tablePrivileges: set<Privilege>, sequencePrivileges: set<Privilege>, functionPrivileges: set<Privilege>,
    appCanCreate: bool, appOwnedLike: seq<string>, updateTables: seq<Name>, retiresAdminDefaults: bool)

  /** A whole contract: the DDL owner role, the app or writer role, the schemas and the readers. */
  datatype Plan = Plan(
    ddl: Role, app: Role, schemas: seq<SchemaPlan>, readers: seq<Role>,
    appMembership: bool, searchPath: Option<Name>)

  // ---- The two shapes ----

  datatype SchemaContract = SchemaContract(name: Name, appTablePrivileges: set<Privilege>, appCanCreate: bool,
                                           appOwnedLike: seq<string>)

  function ServiceSchema(s: SchemaContract): SchemaPlan {
    SchemaPlan(s.name, s.appTablePrivileges, {Usage, Select}, {Execute}, s.appCanCreate, s.appOwnedLike, [], true)
  }

  function ServicePlan(ddl: Role, app: Role, schemas: seq<SchemaContract>): Plan {
    Plan(ddl, app, seq(|schemas|, i requires 0 <= i < |schemas| => ServiceSchema(schemas[i])), [],
      exists s :: s in schemas && s.appOwnedLike != [],
      if |schemas| == 1 && schemas[0].name != "public" then Some(schemas[0].name) else None)
  }

  function SharedPlan(ddl: Role, writer: Role, schema: Name, readers: seq<Role>, updateTables: seq<Name>): Plan {
    Plan(ddl, writer,
      [SchemaPlan(schema, {Select, Insert}, {Usage, Select, Update}, {}, false, [], updateTables, false)],
      readers, false, None)
  }

  // ---- LIKE ----

  predicate Like(name: string, pattern: string)
    decreases |pattern|, |name|
  {
    if pattern == [] then name == []
    else if pattern[0] == '%' then Like(name, pattern[1..]) || (name != [] && Like(name[1..], pattern))
    else if pattern[0] == '_' then name != [] && Like(name[1..], pattern[1..])
    else if pattern[0] == '\\' then |pattern| > 1 && name != [] && name[0] == pattern[1]
      && Like(name[1..], pattern[2..])
    else name != [] && name[0] == pattern[0] && Like(name[1..], pattern[1..])
  }

  predicate RuntimeOwned(sp: SchemaPlan, name: Name) {
    exists pattern :: pattern in sp.appOwnedLike && Like(name, pattern)
  }

  /** The owner that the reassignment gives a relation. */
  function Target(plan: Plan, sp: SchemaPlan, name: Name): Role {
    if RuntimeOwned(sp, name) then plan.app else plan.ddl
  }

  // ---- One schema ----

  function GrantEach(acl: Acl, roles: seq<Role>, privileges: set<Privilege>): Acl {
    if roles == [] then acl
      else Grant(GrantEach(acl, roles[..|roles| - 1], privileges), To(roles[|roles| - 1]), privileges)
  }

  function Reowned(r: Relation, owner: Role): Relation {
    r.(owner := owner, acl := OwnerMoved(r.acl, r.owner, owner))
  }

  /** The reassignment moves the relation: it is the contract's to own, and has another owner. */
  predicate Moves(plan: Plan, sp: SchemaPlan, relations: map<Name, Relation>, name: Name)
    requires name in relations
  {
    Managed(relations[name]) && relations[name].owner != Target(plan, sp, name)
  }

  /** The owner after the reassignment; a serial sequence goes with its table. */
  function OwnerAfter(plan: Plan, sp: SchemaPlan, relations: map<Name, Relation>, name: Name): Role
    requires name in relations
  {
    var r := relations[name];
    if Managed(r) then Target(plan, sp, name)
    else if r.serial.Some? && r.serial.value in relations && Moves(plan, sp, relations, r.serial.value)
    then Target(plan, sp, r.serial.value)
    else r.owner
  }

  function Reassigned(plan: Plan, sp: SchemaPlan, relations: map<Name, Relation>, name: Name): Relation
    requires name in relations
  {
    Reowned(relations[name], OwnerAfter(plan, sp, relations, name))
  }

  function RelationAcl(plan: Plan, sp: SchemaPlan, name: Name, kind: RelationKind, acl: Acl): Acl {
    if TableLike(kind) then
      var granted := Grant(Revoke(acl, To(plan.app), ALL_PRIVILEGES), To(plan.app), sp.tablePrivileges);
      var updatable :=
        if PlainTable(kind) && name in sp.updateTables then Grant(granted, To(plan.app), {Update}) else granted;
      GrantEach(updatable, plan.readers, {Select})
    else if kind == Sequence then Grant(acl, To(plan.app), sp.sequencePrivileges)
    else acl
  }

  /** What GRANT and REVOKE ON ALL TABLES and ON ALL SEQUENCES cover. */
  predicate Covered(kind: RelationKind) {
    TableLike(kind) || kind == Sequence
  }

  /** A grant takes effect where the admin acts as the owner; elsewhere it is at best a warning. */
  function RelationAfter(s: Session, edges: Edges, plan: Plan, sp: SchemaPlan, relations: map<Name, Relation>,
                         name: Name): Relation
    requires name in relations
  {
    var moved := Reassigned(plan, sp, relations, name);
    if Acts(s, edges, moved.owner) then moved.(acl := RelationAcl(plan, sp, name, moved.kind, moved.acl)) else moved
  }

  function RoutineReassigned(plan: Plan, r: Routine): Routine {
    if r.extension || r.kind == Procedure then r else r.(owner := plan.ddl, acl := OwnerMoved(r.acl, r.owner, plan.ddl))
  }

  /** GRANT EXECUTE ON ALL FUNCTIONS, which leaves procedures out, where the contract has it. */
  predicate FunctionsGranted(sp: SchemaPlan, r: Routine) {
    sp.functionPrivileges != {} && r.kind == Function
  }

  function RoutineAfter(s: Session, edges: Edges, plan: Plan, sp: SchemaPlan, r: Routine): Routine {
    var moved := RoutineReassigned(plan, r);
    if FunctionsGranted(sp, r) && Acts(s, edges, moved.owner)
    then moved.(acl := Grant(moved.acl, To(plan.app), sp.functionPrivileges))
    else moved
  }

  function SchemaAcl(plan: Plan, sp: SchemaPlan, owner: Role, acl: Acl): Acl {
    var moved := Revoke(OwnerMoved(acl, owner, plan.ddl), Public, {Create});
    var used := Grant(moved, To(plan.app), {Usage});
    var decided :=
      if sp.appCanCreate then Grant(used, To(plan.app), {Create}) else Revoke(used, To(plan.app), {Create});
    GrantEach(decided, plan.readers, {Usage})
  }

  type Defaults = map<(Role, ObjectKind), Acl>

  function DefaultOf(defaults: Defaults, role: Role, kind: ObjectKind): Acl {
    if (role, kind) in defaults then defaults[(role, kind)] else map[]
  }

  /** ALTER DEFAULT PRIVILEGES FOR ROLE .. GRANT */
  function GrantDefault(defaults: Defaults, role: Role, kind: ObjectKind, grantee: Role,
                        privileges: set<Privilege>): Defaults {
    defaults[(role, kind) := Grant(DefaultOf(defaults, role, kind), To(grantee), privileges)]
  }

  function GrantDefaultEach(defaults: Defaults, role: Role, kind: ObjectKind, grantees: seq<Role>,
                            privileges: set<Privilege>): Defaults {
    if grantees == [] then defaults
    else
      var n := |grantees| - 1;
      GrantDefault(GrantDefaultEach(defaults, role, kind, grantees[..n], privileges), role, kind, grantees[n],
        privileges)
  }

  function RevokeDefault(defaults: Defaults, role: Role, kind: ObjectKind, grantee: Role): Defaults {
    defaults[(role, kind) := Revoke(DefaultOf(defaults, role, kind), To(grantee), ALL_PRIVILEGES)]
  }

  /** The default privileges, statement by statement; retiring the admin's comes last. */
  function DefaultsAfter(admin: Role, plan: Plan, sp: SchemaPlan, defaults: Defaults): Defaults {
    var tables := GrantDefault(defaults, plan.ddl, OnTables, plan.app, sp.tablePrivileges);
    var sequences := GrantDefault(tables, plan.ddl, OnSequences, plan.app, sp.sequencePrivileges);
    var functions :=
      if sp.functionPrivileges == {} then sequences
      else GrantDefault(sequences, plan.ddl, OnFunctions, plan.app, sp.functionPrivileges);
    var retired :=
      if !sp.retiresAdminDefaults then functions
      else RevokeDefault(RevokeDefault(functions, admin, OnTables, plan.app), admin, OnSequences, plan.app);
    GrantDefaultEach(retired, plan.ddl, OnTables, plan.readers, {Select})
  }

  function RelationsAfter(s: Session, edges: Edges, plan: Plan, sp: SchemaPlan, relations: map<Name, Relation>)
    : map<Name, Relation>
  {
    map name | name in relations :: RelationAfter(s, edges, plan, sp, relations, name)
  }

  function RoutinesAfter(s: Session, edges: Edges, plan: Plan, sp: SchemaPlan,
                         routines: map<Name, Routine>): map<Name, Routine> {
    map name | name in routines :: RoutineAfter(s, edges, plan, sp, routines[name])
  }

  /** A schema after its block of statements, object by object; the memberships are those at the grants. */
  function SchemaAfter(s: Session, edges: Edges, plan: Plan, sp: SchemaPlan, x: Schema): Schema {
    Schema(plan.ddl, SchemaAcl(plan, sp, x.owner, x.acl), RelationsAfter(s, edges, plan, sp, x.relations),
      RoutinesAfter(s, edges, plan, sp, x.routines), DefaultsAfter(s.admin, plan, sp, x.defaults))
  }

  function SchemaOrNew(admin: Role, schemas: map<Name, Schema>, name: Name): Schema {
    if name in schemas then schemas[name]
    else Schema(admin, map[To(admin) := {Usage, Create}], map[], map[], map[])
  }

  // ---- Memberships taken and given back ----

  /** The memberships, and the roles whose membership the script has granted to the admin so far. */
  datatype Pass = Pass(edges: Edges, granted: seq<Role>)

  function Take(s: Session, p: Pass, role: Role): Pass {
    Pass(Granted(p.edges, s.admin, role), p.granted + [role])
  }

  function Has(s: Session, p: Pass, role: Role, ability: Ability): bool {
    HasRole(s.superusers, p.edges, s.admin, role, ability)
  }

  function SetAbility(s: Session): Ability {
    if s.pg16 then CanSet else IsMember
  }

  function TakeOwner(s: Session, p: Pass, owner: Role): Pass {
    if owner != s.admin && !Has(s, p, owner, CanUse) then Take(s, p, owner) else p
  }

  function TakeTarget(s: Session, p: Pass, target: Role): Pass {
    if Has(s, p, target, CanUse) && Has(s, p, target, SetAbility(s)) then p else Take(s, p, target)
  }

  /** One row of the relation loop. */
  function TakeForRelation(s: Session, p: Pass, owner: Role, target: Role): Pass {
    if owner == target then p else TakeTarget(s, TakeOwner(s, p, owner), target)
  }

  function RelationLoop(s: Session, plan: Plan, sp: SchemaPlan, relations: map<Name, Relation>, names: seq<Name>,
                        p: Pass): Pass
    requires forall name :: name in names ==> name in relations
  {
    if names == [] then p
    else
      var name := names[|names| - 1];
      TakeForRelation(s, RelationLoop(s, plan, sp, relations, names[..|names| - 1], p), relations[name].owner,
        Target(plan, sp, name))
  }

  function RoutineLoop(s: Session, routines: map<Name, Routine>, names: seq<Name>, p: Pass): Pass
    requires forall name :: name in names ==> name in routines
  {
    if names == [] then p
    else TakeOwner(s, RoutineLoop(s, routines, names[..|names| - 1], p), routines[names[|names| - 1]].owner)
  }

  function GiveBack(s: Session, edges: Edges, granted: seq<Role>): Edges {
    if granted == [] then edges
    else Withdrawn(s.pg16, GiveBack(s, edges, granted[..|granted| - 1]), s.admin, granted[|granted| - 1])
  }

  /** The order in which a query returns rows. */
  type Scan = set<Name> -> seq<Name>

  ghost predicate Enumerates(scan: Scan) {
    forall names :: forall name :: name in scan(names) <==> name in names
  }

  function ManagedNames(schema: Schema): set<Name> {
    set name | name in schema.relations && Managed(schema.relations[name])
  }

  function StrayRoutines(plan: Plan, schema: Schema): set<Name> {
    set name | name in schema.routines && schema.routines[name].owner != plan.ddl && !schema.routines[name].extension
  }

  /** The memberships that the reassignment block takes, before it gives them back. */
  function ReassignTakes(s: Session, plan: Plan, sp: SchemaPlan, scan: Scan, schema: Schema, edges: Edges): Pass
    requires forall name :: name in scan(ManagedNames(schema)) ==> name in schema.relations
    requires forall name :: name in scan(StrayRoutines(plan, schema)) ==> name in schema.routines
  {
    RoutineLoop(s, schema.routines, scan(StrayRoutines(plan, schema)),
      RelationLoop(s, plan, sp, schema.relations, scan(ManagedNames(schema)), Pass(edges, [])))
  }

  function EnsureRole(s: Session, c: Catalog, role: Role): Catalog {
    if role in c.roles then c
    else c.(roles := c.roles + {role},
            edges :=
              if s.pg16 && s.admin !in s.superusers then c.edges[(s.admin, role) := Edge(true, false, false)]
              else c.edges)
  }

  function EnsureRoles(s: Session, c: Catalog, roles: seq<Role>): Catalog {
    if roles == [] then c else EnsureRole(s, EnsureRoles(s, c, roles[..|roles| - 1]), roles[|roles| - 1])
  }

  function TakeDdl(s: Session, p: Pass, ddl: Role): Pass {
    if s.pg16 then TakeTarget(s, p, ddl)
    else if Has(s, p, ddl, IsMember) then p else Take(s, p, ddl)
  }

  /** GRANT app TO ddl, which leaves an existing membership as it is. */
  function GrantPlain(edges: Edges, member: Role, role: Role): Edges {
    if (member, role) in edges then edges else edges[(member, role) := Edge(false, true, true)]
  }

  function DatabaseAcl(plan: Plan, acl: Acl): Acl {
    var owned := Grant(acl, To(plan.ddl), {Connect, Create});
    var connected := Revoke(Grant(owned, To(plan.app), {Connect}), To(plan.app), {Create});
    GrantEach(connected, plan.readers, {Connect})
  }

  /** What the script leaves, and every role whose membership it granted to the admin on the way. */
  datatype Outcome = Outcome(catalog: Catalog, everGranted: seq<Role>)

  /** The memberships when the block comes to its grants. */
  function EdgesAtGrants(s: Session, plan: Plan, sp: SchemaPlan, scan: Scan, schema: Schema, edges: Edges): Edges
    requires Enumerates(scan)
  {
    var takes := ReassignTakes(s, plan, sp, scan, schema, edges);
    GiveBack(s, takes.edges, takes.granted)
  }

  function SchemaBlock(s: Session, plan: Plan, sp: SchemaPlan, scan: Scan, o: Outcome): Outcome
    requires Enumerates(scan)
  {
    var schema := SchemaOrNew(s.admin, o.catalog.schemas, sp.name);
    var edges := EdgesAtGrants(s, plan, sp, scan, schema, o.catalog.edges);
    Outcome(
      o.catalog.(schemas := o.catalog.schemas[sp.name := SchemaAfter(s, edges, plan, sp, schema)], edges := edges),
      o.everGranted + ReassignTakes(s, plan, sp, scan, schema, o.catalog.edges).granted)
  }

  function SchemaBlocks(s: Session, plan: Plan, schemas: seq<SchemaPlan>, scan: Scan, o: Outcome): Outcome
    requires Enumerates(scan)
  {
    if schemas == [] then o
    else SchemaBlock(s, plan, schemas[|schemas| - 1], scan, SchemaBlocks(s, plan, schemas[..|schemas| - 1], scan, o))
  }

  function Opened(s: Session, plan: Plan, c: Catalog): Outcome {
    var ensured := EnsureRoles(s, c, [plan.ddl, plan.app]);
    var p := TakeDdl(s, Pass(ensured.edges, []), plan.ddl);
    Outcome(ensured.(edges := p.edges, databaseAcl := DatabaseAcl(plan, c.databaseAcl)), p.granted)
  }

  function Closed(s: Session, plan: Plan, o: Outcome): Outcome {
    var joined := Joined(plan, o.catalog.edges);
    var pathed :=
      if plan.searchPath.None? then o.catalog.searchPath
      else
        var path := [plan.searchPath.value, "public"];
        o.catalog.searchPath[plan.ddl := path][plan.app := path];
    var read := EnsureRoles(s, o.catalog.(edges := joined, searchPath := pathed), plan.readers);
    Outcome(
      read.(edges := Withdrawn(s.pg16, Withdrawn(s.pg16, read.edges, s.admin, plan.app), s.admin, plan.ddl)),
      o.everGranted)
  }

  /** What render_service_bootstrap and render_shared_bootstrap do to a catalog, if no statement fails. */
  function Bootstrapped(s: Session, plan: Plan, scan: Scan, c: Catalog): Outcome
    requires Enumerates(scan)
  {
    Closed(s, plan, SchemaBlocks(s, plan, plan.schemas, scan, Opened(s, plan, c)))
  }

  // ---- Statements that can fail ----

  /** GRANT of a membership to the admin, if the script finds that it needs one. */
  predicate TakeOwnerRuns(s: Session, p: Pass, owner: Role) {
    owner == s.admin || Has(s, p, owner, CanUse) || MayTake(s, p.edges, owner)
  }

  predicate TakeTargetRuns(s: Session, p: Pass, target: Role) {
    (Has(s, p, target, CanUse) && Has(s, p, target, SetAbility(s))) || MayTake(s, p.edges, target)
  }

  /** ALTER .. OWNER TO: the new owner must be able to create in the schema, unless a superuser says so. */
  predicate MayOwn(s: Session, edges: Edges, acl: Acl, role: Role) {
    s.admin in s.superusers || CreatesIn(s.superusers, edges, role, acl)
  }

  /** One row of the relation loop; `acl` is the schema's. */
  predicate RelationRuns(s: Session, acl: Acl, p: Pass, owner: Role, target: Role) {
    owner == target ||
    (var q := TakeOwner(s, p, owner);
     TakeOwnerRuns(s, p, owner) && TakeTargetRuns(s, q, target)
       && MayOwn(s, TakeTarget(s, q, target).edges, acl, target))
  }

  predicate RelationLoopRuns(s: Session, plan: Plan, sp: SchemaPlan, acl: Acl, relations: map<Name, Relation>,
                             names: seq<Name>, p: Pass)
    requires forall name :: name in names ==> name in relations
  {
    if names == [] then true
    else
      var n := |names| - 1;
      && RelationLoopRuns(s, plan, sp, acl, relations, names[..n], p)
      && RelationRuns(s, acl, RelationLoop(s, plan, sp, relations, names[..n], p), relations[names[n]].owner,
                      Target(plan, sp, names[n]))
  }

  /** One row of the function loop: ALTER FUNCTION refuses a procedure. */
  predicate RoutineRuns(s: Session, plan: Plan, acl: Acl, p: Pass, r: Routine) {
    var q := TakeOwner(s, p, r.owner);
    && TakeOwnerRuns(s, p, r.owner) && r.kind == Function
    && Has(s, q, plan.ddl, SetAbility(s)) && MayOwn(s, q.edges, acl, plan.ddl)
  }

  predicate RoutineLoopRuns(s: Session, plan: Plan, acl: Acl, routines: map<Name, Routine>, names: seq<Name>, p: Pass)
    requires forall name :: name in names ==> name in routines
  {
    if names == [] then true
    else
      var n := |names| - 1;
      && RoutineLoopRuns(s, plan, acl, routines, names[..n], p)
      && RoutineRuns(s, plan, acl, RoutineLoop(s, routines, names[..n], p), routines[names[n]])
  }

  /** A grant on an object that the admin cannot act for is an error if the admin holds nothing on it. */
  predicate GrantRuns(s: Session, edges: Edges, owner: Role, acl: Acl) {
    Acts(s, edges, owner) || HoldsAny(s, edges, acl)
  }

  predicate GrantsRun(s: Session, edges: Edges, plan: Plan, sp: SchemaPlan, schema: Schema) {
    && (forall name :: name in schema.relations && Covered(schema.relations[name].kind) ==>
          var moved := Reassigned(plan, sp, schema.relations, name); GrantRuns(s, edges, moved.owner, moved.acl))
    && (forall name :: name in schema.routines && FunctionsGranted(sp, schema.routines[name]) ==>
          var moved := RoutineReassigned(plan, schema.routines[name]); GrantRuns(s, edges, moved.owner, moved.acl))
  }

  /** The DO block that reassigns ownership. */
  predicate ReassignRuns(s: Session, plan: Plan, sp: SchemaPlan, scan: Scan, schema: Schema, edges: Edges)
    requires Enumerates(scan)
  {
    var acl, managed := SchemaAcl(plan, sp, schema.owner, schema.acl), scan(ManagedNames(schema));
    && RelationLoopRuns(s, plan, sp, acl, schema.relations, managed, Pass(edges, []))
    && RoutineLoopRuns(s, plan, acl, schema.routines, scan(StrayRoutines(plan, schema)),
                       RelationLoop(s, plan, sp, schema.relations, managed, Pass(edges, [])))
  }

  /** ALTER SCHEMA .. OWNER TO the DDL role, and the grants on the schema after it. */
  predicate SchemaTaken(s: Session, plan: Plan, schema: Schema, edges: Edges) {
    && (schema.owner == plan.ddl
        || (Acts(s, edges, schema.owner) && HasRole(s.superusers, edges, s.admin, plan.ddl, SetAbility(s))))
    && Acts(s, edges, plan.ddl)
  }

  /** No statement of the block fails; ALTER DEFAULT PRIVILEGES FOR ROLE takes the privileges of that role. */
  predicate BlockRuns(s: Session, plan: Plan, sp: SchemaPlan, scan: Scan, schema: Schema, edges: Edges)
    requires Enumerates(scan)
  {
    var after := EdgesAtGrants(s, plan, sp, scan, schema, edges);
    && SchemaTaken(s, plan, schema, edges)
    && ReassignRuns(s, plan, sp, scan, schema, edges)
    && GrantsRun(s, after, plan, sp, schema)
    && Acts(s, after, plan.ddl)
  }

  predicate BlocksRun(s: Session, plan: Plan, schemas: seq<SchemaPlan>, scan: Scan, o: Outcome)
    requires Enumerates(scan)
  {
    if schemas == [] then true
    else
      var n := |schemas| - 1;
      var before := SchemaBlocks(s, plan, schemas[..n], scan, o).catalog;
      && BlocksRun(s, plan, schemas[..n], scan, o)
      && BlockRuns(s, plan, schemas[n], scan, SchemaOrNew(s.admin, before.schemas, schemas[n].name), before.edges)
  }

  /** The DDL membership is there already, or may be granted. */
  predicate OpenRuns(s: Session, plan: Plan, c: Catalog) {
    var p := Pass(EnsureRoles(s, c, [plan.ddl, plan.app]).edges, []);
    TakeDdl(s, p, plan.ddl) == p || MayTake(s, p.edges, plan.ddl)
  }

  /** The DDL role's membership in the app role, where the contract wants one. */
  function Joined(plan: Plan, edges: Edges): Edges {
    if plan.appMembership then GrantPlain(edges, plan.ddl, plan.app) else edges
  }

  predicate JoinRuns(s: Session, plan: Plan, edges: Edges) {
    plan.appMembership ==> MayGrant(s, edges, plan.app) && !Circular(edges, plan.ddl, plan.app)
  }

  /** Setting parameters of both roles takes authority over them, as granting does. */
  predicate PathsRun(s: Session, plan: Plan, edges: Edges) {
    plan.searchPath.Some? ==> MayGrant(s, edges, plan.ddl) && MayGrant(s, edges, plan.app)
  }

  predicate CloseRuns(s: Session, plan: Plan, edges: Edges) {
    JoinRuns(s, plan, edges) && PathsRun(s, plan, Joined(plan, edges))
  }

  predicate Finishes(s: Session, plan: Plan, scan: Scan, c: Catalog)
    requires Enumerates(scan)
  {
    && OpenRuns(s, plan, c)
    && BlocksRun(s, plan, plan.schemas, scan, Opened(s, plan, c))
    && CloseRuns(s, plan, SchemaBlocks(s, plan, plan.schemas, scan, Opened(s, plan, c)).catalog.edges)
  }

  /** The script, statement by statement until one fails: what it leaves, if none does. */
  function Script(s: Session, plan: Plan, scan: Scan, c: Catalog): Option<Outcome>
    requires Enumerates(scan)
  {
    if Finishes(s, plan, scan, c) then Some(Bootstrapped(s, plan, scan, c)) else None
  }

  // ---- Verification ----

  ghost predicate OwnedSchema(plan: Plan, sp: SchemaPlan, c: Catalog) {
    sp.name in c.schemas && c.schemas[sp.name].owner == plan.ddl
  }

  ghost predicate OwnedRelations(plan: Plan, sp: SchemaPlan, c: Catalog)
    requires sp.name in c.schemas
  {
    var schema := c.schemas[sp.name];
    forall name :: name in schema.relations && Managed(schema.relations[name]) ==>
      || schema.relations[name].owner == plan.ddl
      || (schema.relations[name].owner == plan.app && RuntimeOwned(sp, name))
  }

  ghost predicate DefaultsGrantInsert(plan: Plan, sp: SchemaPlan, c: Catalog)
    requires sp.name in c.schemas
  {
    Insert in Held(Default(c.schemas[sp.name], plan.ddl, OnTables), To(plan.app))
  }

  ghost predicate CreateAsDeclared(superusers: set<Role>, plan: Plan, sp: SchemaPlan, c: Catalog)
    requires sp.name in c.schemas
  {
    HasPrivilege(superusers, c.edges, plan.app, c.schemas[sp.name].acl, Create) <==> sp.appCanCreate
  }

  /** render_service_verify: no statement raises. */
  ghost predicate ServiceVerifies(superusers: set<Role>, plan: Plan, c: Catalog) {
    forall sp :: sp in plan.schemas ==>
      && OwnedSchema(plan, sp, c) && OwnedRelations(plan, sp, c)
      && DefaultsGrantInsert(plan, sp, c) && CreateAsDeclared(superusers, plan, sp, c)
  }

  ghost predicate Rewrites(superusers: set<Role>, edges: Edges, role: Role, acl: Acl) {
    HasPrivilege(superusers, edges, role, acl, Update) || HasPrivilege(superusers, edges, role, acl, Delete)
  }

  predicate FactTable(sp: SchemaPlan, name: Name, r: Relation) {
    PlainTable(r.kind) && name !in sp.updateTables
  }

  ghost predicate AppendOnly(superusers: set<Role>, plan: Plan, sp: SchemaPlan, c: Catalog)
    requires sp.name in c.schemas
  {
    var relations := c.schemas[sp.name].relations;
    forall name :: name in relations && FactTable(sp, name, relations[name]) ==>
      !Rewrites(superusers, c.edges, plan.app, relations[name].acl)
  }

  /** render_shared_verify: no statement raises. */
  ghost predicate SharedVerifies(superusers: set<Role>, plan: Plan, c: Catalog) {
    forall sp :: sp in plan.schemas ==>
      OwnedSchema(plan, sp, c) && OwnedRelations(plan, sp, c) && AppendOnly(superusers, plan, sp, c)
  }
}
