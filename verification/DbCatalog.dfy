/** The part of a PostgreSQL catalog that the ownership contract reads and changes (db_contract.py). */
module DbCatalog {
  import opened Common

  type Role = string
  type Name = string

  datatype Grantee = Public | To(role: Role)

  datatype Privilege =
    | Select | Insert | Update | Delete | Truncate | References | Trigger
    | Usage | Create | Connect | Execute

  const ALL_PRIVILEGES: set<Privilege> :=
    {Select, Insert, Update, Delete, Truncate, References, Trigger, Usage, Create, Connect, Execute}

  /** An access list; one that the server keeps as null is written out as the default it stands for. */
  type Acl = map<Grantee, set<Privilege>>

  function Held(acl: Acl, grantee: Grantee): set<Privilege> {
    if grantee in acl then acl[grantee] else {}
  }

  function Grant(acl: Acl, grantee: Grantee, privileges: set<Privilege>): Acl {
    acl[grantee := Held(acl, grantee) + privileges]
  }

  function Revoke(acl: Acl, grantee: Grantee, privileges: set<Privilege>): Acl {
    acl[grantee := Held(acl, grantee) - privileges]
  }

  /** ALTER .. OWNER TO: the old owner's entries become the new owner's. */
  function OwnerMoved(acl: Acl, old_: Role, new_: Role): Acl {
    if old_ == new_ then acl else Grant(acl, To(new_), Held(acl, To(old_))) - {To(old_)}
  }

  // ---- Memberships ----

  /** A membership: its admin option, and whether it inherits privileges and allows SET ROLE. */
  datatype Edge = Edge(admin: bool, inherits: bool, sets: bool)

  /** Memberships by (member, role); one grantor. */
  type Edges = map<(Role, Role), Edge>

  datatype Ability = CanUse | CanSet | IsMember

  predicate Allows(edge: Edge, ability: Ability) {
    match ability
    case CanUse => edge.inherits
    case CanSet => edge.sets
    case IsMember => true
  }

  /** The memberships that carry an ability. */
  function Links(edges: Edges, ability: Ability): set<(Role, Role)> {
    set pair | pair in edges && Allows(edges[pair], ability)
  }

  predicate Reach(links: set<(Role, Role)>, from: Role, to: Role, n: nat)
    decreases n
  {
    from == to || (n > 0 && exists pair :: pair in links && pair.0 == from && Reach(links, pair.1, to, n - 1))
  }

  /** pg_has_role: superusers have every role; others reach it along memberships. */
  predicate HasRole(superusers: set<Role>, edges: Edges, member: Role, role: Role, ability: Ability) {
    member in superusers || Reach(Links(edges, ability), member, role, |Links(edges, ability)|)
  }

  /** Who runs the script, on which server generation. The admin may create roles, and owns the database. */
  datatype Session = Session(admin: Role, pg16: bool, superusers: set<Role>)

  /** The admin has the privileges of the role, and so acts as the owner of what it owns. */
  predicate Acts(s: Session, edges: Edges, role: Role) {
    HasRole(s.superusers, edges, s.admin, role, CanUse)
  }

  /** The admin may grant membership in the role: from PostgreSQL 16 on that takes an admin option. */
  predicate MayGrant(s: Session, edges: Edges, role: Role) {
    || s.admin in s.superusers
    || (role !in s.superusers
        && (s.pg16 ==> exists pair :: pair in edges && pair.1 == role && edges[pair].admin
                                      && HasRole(s.superusers, edges, s.admin, pair.0, IsMember)))
  }

  /** GRANT refuses a membership that would close a circle, to a superuser as well. */
  predicate Circular(edges: Edges, member: Role, role: Role) {
    Reach(Links(edges, IsMember), role, member, |Links(edges, IsMember)|)
  }

  /** GRANT of the role to the admin goes through. */
  predicate MayTake(s: Session, edges: Edges, role: Role) {
    MayGrant(s, edges, role) && !Circular(edges, s.admin, role)
  }

  /** The admin holds something on the object, its own or PUBLIC's or that of a role it can act as. */
  predicate HoldsAny(s: Session, edges: Edges, acl: Acl) {
    exists g :: g in acl && acl[g] != {} && (g.Public? || Acts(s, edges, g.role))
  }

  /** The role may create in a schema with this access list. */
  predicate CreatesIn(superusers: set<Role>, edges: Edges, role: Role, acl: Acl) {
    || role in superusers
    || exists g :: g in acl && Create in acl[g] && (g.Public? || HasRole(superusers, edges, role, g.role, CanUse))
  }

  function Granted(edges: Edges, member: Role, role: Role): Edges {
    edges[(member, role) := Edge((member, role) in edges && edges[(member, role)].admin, true, true)]
  }

  /** REVOKE SET and INHERIT OPTION FOR on PostgreSQL 16, the whole membership before it. */
  function Withdrawn(pg16: bool, edges: Edges, member: Role, role: Role): Edges {
    if (member, role) !in edges then edges
    else if pg16 then edges[(member, role) := Edge(edges[(member, role)].admin, false, false)]
    else edges - {(member, role)}
  }

  /** A membership that is absent, or present without its abilities. */
  predicate Clean(edges: Edges, member: Role, role: Role) {
    (member, role) in edges ==> !edges[(member, role)].inherits && !edges[(member, role)].sets
  }

  // ---- Schemas ----

  datatype RelationKind = Table | PartitionedTable | Sequence | View | MaterializedView | ForeignTable | OtherKind

  /** `serial` names the table whose column a sequence belongs to; `extension` marks a member of an extension. */
  datatype Relation = Relation(kind: RelationKind, owner: Role, acl: Acl, serial: Option<Name>, extension: bool)

  /** Aggregates and window functions count as functions; ALTER FUNCTION takes them, and refuses procedures. */
  datatype RoutineKind = Function | Procedure

  datatype Routine = Routine(kind: RoutineKind, owner: Role, acl: Acl, extension: bool)

  datatype ObjectKind = OnTables | OnSequences | OnFunctions

  datatype Schema = Schema(
    owner: Role, acl: Acl,
    relations: map<Name, Relation>, routines: map<Name, Routine>,
    defaults: map<(Role, ObjectKind), Acl>)

  datatype Catalog = Catalog(
    roles: set<Role>, edges: Edges, databaseAcl: Acl, searchPath: map<Role, seq<Name>>, schemas: map<Name, Schema>)

  /** The relations that the contract owns up to: not serial sequences, not extension members. */
  predicate Managed(r: Relation) {
    && r.kind in {Table, PartitionedTable, Sequence, View, MaterializedView}
    && !(r.kind == Sequence && r.serial.Some?)
    && !r.extension
  }

  /** GRANT .. ON ALL TABLES covers every relation that can be selected from. */
  predicate TableLike(kind: RelationKind) {
    kind in {Table, PartitionedTable, View, MaterializedView, ForeignTable}
  }

  /** pg_tables */
  predicate PlainTable(kind: RelationKind) {
    kind == Table || kind == PartitionedTable
  }

  function Default(schema: Schema, role: Role, kind: ObjectKind): Acl {
    if (role, kind) in schema.defaults then schema.defaults[(role, kind)] else map[]
  }

  /** has_schema_privilege, has_table_privilege: one's own, PUBLIC's, or a role's whose privileges one has. */
  ghost predicate HasPrivilege(superusers: set<Role>, edges: Edges, role: Role, acl: Acl, privilege: Privilege) {
    || role in superusers
    || privilege in Held(acl, Public)
    || exists other :: HasRole(superusers, edges, role, other, CanUse) && privilege in Held(acl, To(other))
  }

  /** The role inherits from nobody. */
  ghost predicate Standalone(edges: Edges, role: Role) {
    forall other :: (role, other) in edges ==> !edges[(role, other)].inherits
  }

  lemma StandalonePrivileges(superusers: set<Role>, edges: Edges, role: Role, acl: Acl, privilege: Privilege)
    requires role !in superusers && Standalone(edges, role)
    ensures HasPrivilege(superusers, edges, role, acl, privilege)
      <==> privilege in Held(acl, Public) || privilege in Held(acl, To(role))
  {
    forall other
      ensures HasRole(superusers, edges, role, other, CanUse) <==> other == role
    {
      var links := Links(edges, CanUse);
      assert forall pair :: pair in links ==> pair.0 != role;
      assert Reach(links, role, other, |links|) <==> role == other;
    }
  }

  // ---- Reaching ----

  lemma {:induction false} ReachMonotone(a: set<(Role, Role)>, b: set<(Role, Role)>, from: Role, to: Role, n: nat,
                                         m: nat)
    requires a <= b && n <= m && Reach(a, from, to, n)
    ensures Reach(b, from, to, m)
    decreases n
  {
    if from != to {
      var pair :| pair in a && pair.0 == from && Reach(a, pair.1, to, n - 1);
      ReachMonotone(a, b, pair.1, to, n - 1, m - 1);
    }
  }

  lemma {:induction false} ReachThrough(links: set<(Role, Role)>, from: Role, middle: Role, to: Role, n: nat, m: nat)
    requires Reach(links, from, middle, n) && Reach(links, middle, to, m)
    ensures Reach(links, from, to, n + m)
    decreases n
  {
    if from == middle {
      ReachMonotone(links, links, from, to, m, n + m);
    } else {
      var pair :| pair in links && pair.0 == from && Reach(links, pair.1, middle, n - 1);
      ReachThrough(links, pair.1, middle, to, n - 1, m);
    }
  }

  /** Only the links that do not start at the destination matter. */
  lemma {:induction false} ReachUntil(a: set<(Role, Role)>, b: set<(Role, Role)>, from: Role, to: Role, n: nat)
    requires Reach(a, from, to, n) && forall pair :: pair in a && pair.0 != to ==> pair in b
    ensures Reach(b, from, to, n)
    decreases n
  {
    if from != to {
      var pair :| pair in a && pair.0 == from && Reach(a, pair.1, to, n - 1);
      ReachUntil(a, b, pair.1, to, n - 1);
    }
  }

  /** A path either does without the links that start at a role, or leads to that role without them. */
  lemma {:induction false} ReachSplits(a: set<(Role, Role)>, b: set<(Role, Role)>, from: Role, to: Role, n: nat,
                                       role: Role)
    requires Reach(a, from, to, n) && forall pair :: pair in a && pair.0 != role ==> pair in b
    ensures Reach(b, from, to, n) || Reach(b, from, role, n)
    decreases n
  {
    if from != to && from != role {
      var pair :| pair in a && pair.0 == from && Reach(a, pair.1, to, n - 1);
      ReachSplits(a, b, pair.1, to, n - 1, role);
    }
  }

  function Leaving(links: set<(Role, Role)>, role: Role): set<(Role, Role)> {
    set pair | pair in links && pair.0 == role
  }

  /** A path either never leaves a given role, or can be started there. */
  lemma {:induction false} ReachAvoids(links: set<(Role, Role)>, from: Role, to: Role, n: nat, role: Role)
    requires Reach(links, from, to, n)
    ensures Reach(links - Leaving(links, role), from, to, n) || Reach(links, role, to, n)
    decreases n
  {
    if from != to && from != role {
      var pair :| pair in links && pair.0 == from && Reach(links, pair.1, to, n - 1);
      ReachAvoids(links, pair.1, to, n - 1, role);
      if Reach(links, role, to, n - 1) {
        ReachMonotone(links, links, role, to, n - 1, n);
      }
    }
  }

  /** A path that starts at a role need not come back to it. */
  lemma {:induction false} ReachLeavesOnce(links: set<(Role, Role)>, from: Role, to: Role, n: nat) returns (next: Role)
    requires Reach(links, from, to, n) && from != to
    ensures (from, next) in links && n > 0 && Reach(links - Leaving(links, from), next, to, n - 1)
    decreases n
  {
    var pair :| pair in links && pair.0 == from && Reach(links, pair.1, to, n - 1);
    next := pair.1;
    ReachAvoids(links, next, to, n - 1, from);
    if !Reach(links - Leaving(links, from), next, to, n - 1) {
      next := ReachLeavesOnce(links, from, to, n - 1);
      ReachMonotone(links - Leaving(links, from), links - Leaving(links, from), next, to, n - 2, n - 1);
    }
  }

  /** No path needs more steps than there are links, so the bound in HasRole loses nothing. */
  lemma {:induction false} ReachBound(links: set<(Role, Role)>, from: Role, to: Role, n: nat)
    requires Reach(links, from, to, n)
    ensures Reach(links, from, to, |links|)
    decreases |links|
  {
    if from != to {
      var next := ReachLeavesOnce(links, from, to, n);
      var rest := links - Leaving(links, from);
      assert (from, next) in Leaving(links, from);
      Fewer(links, rest, (from, next));
      ReachBound(rest, next, to, n - 1);
      ReachMonotone(rest, links, next, to, |rest|, |links| - 1);
    }
  }

  lemma Fewer(all: set<(Role, Role)>, some: set<(Role, Role)>, missing: (Role, Role))
    requires some <= all && missing in all && missing !in some
    ensures |some| < |all|
  {
    SubsetSize(some, all - {missing});
  }

  lemma {:induction false} SubsetSize(a: set<(Role, Role)>, b: set<(Role, Role)>)
    requires a <= b
    ensures |a| <= |b|
  {
    if a != {} {
      var x :| x in a;
      SubsetSize(a - {x}, b - {x});
    }
  }

  /** More memberships with an ability, more roles reached. */
  lemma HasRoleMonotone(superusers: set<Role>, a: Edges, b: Edges, member: Role, role: Role, ability: Ability)
    requires Links(a, ability) <= Links(b, ability) && HasRole(superusers, a, member, role, ability)
    ensures HasRole(superusers, b, member, role, ability)
  {
    if member !in superusers {
      SubsetSize(Links(a, ability), Links(b, ability));
      ReachMonotone(Links(a, ability), Links(b, ability), member, role, |Links(a, ability)|, |Links(b, ability)|);
    }
  }

  /** A direct membership is enough. */
  lemma HasDirectly(superusers: set<Role>, edges: Edges, member: Role, role: Role, ability: Ability)
    requires (member, role) in edges && Allows(edges[(member, role)], ability)
    ensures HasRole(superusers, edges, member, role, ability)
  {
    var links := Links(edges, ability);
    assert (member, role) in links && Reach(links, role, role, 0);
    assert Reach(links, member, role, 1);
    ReachBound(links, member, role, 1);
  }
}
