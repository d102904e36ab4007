/** The bootstrap reaches what the verification asks for, gives back what it took, and settles. */
module DbContractProofs {
  import opened Common
  import opened DbCatalog
  import opened DbContract

  // ---- Access lists ----

  /** What a grantee gets from a grant to each of these roles. */
  function ReaderShare(roles: seq<Role>, g: Grantee, privileges: set<Privilege>): set<Privilege> {
    if g.To? && g.role in roles then privileges else {}
  }

  lemma {:induction false} GrantEachHolds(acl: Acl, roles: seq<Role>, privileges: set<Privilege>)
    ensures forall g :: Held(GrantEach(acl, roles, privileges), g) == Held(acl, g) + ReaderShare(roles, g, privileges)
    ensures forall g :: g in GrantEach(acl, roles, privileges) <==> g in acl || (g.To? && g.role in roles)
    decreases |roles|
  {
    if roles != [] {
      var n := |roles| - 1;
      GrantEachHolds(acl, roles[..n], privileges);
      assert roles == roles[..n] + [roles[n]];
    }
  }

  /** Two access lists are the same when they have the same entries and hold the same. */
  lemma SameAcl(a: Acl, b: Acl)
    requires forall g :: g in a <==> g in b
    requires forall g :: Held(a, g) == Held(b, g)
    ensures a == b
  {
    forall g | g in a
      ensures a[g] == b[g]
    {
      assert Held(a, g) == Held(b, g);
    }
  }

  lemma EverythingIsAll(privileges: set<Privilege>)
    ensures privileges <= ALL_PRIVILEGES
  {
    forall p | p in privileges
      ensures p in ALL_PRIVILEGES
    {
      match p
      case Select | Insert | Update | Delete | Truncate | References | Trigger | Usage | Create | Connect | Execute =>
    }
  }

  /** One entry of a table's access list after the block. */
  function TableEntry(plan: Plan, sp: SchemaPlan, name: Name, kind: RelationKind, g: Grantee,
                      held: set<Privilege>): set<Privilege> {
    (if g == To(plan.app)
      then sp.tablePrivileges + (if PlainTable(kind) && name in sp.updateTables then {Update} else {})
     else held) + ReaderShare(plan.readers, g, {Select})
  }

  lemma RelationAclHolds(plan: Plan, sp: SchemaPlan, name: Name, kind: RelationKind, acl: Acl)
    requires TableLike(kind)
    ensures forall g ::
      Held(RelationAcl(plan, sp, name, kind, acl), g) == TableEntry(plan, sp, name, kind, g, Held(acl, g))
    ensures forall g ::
      g in RelationAcl(plan, sp, name, kind, acl) <==>
      g in acl || g == To(plan.app) || (g.To? && g.role in plan.readers)
  {
    var granted := Grant(Revoke(acl, To(plan.app), ALL_PRIVILEGES), To(plan.app), sp.tablePrivileges);
    var updatable :=
      if PlainTable(kind) && name in sp.updateTables then Grant(granted, To(plan.app), {Update}) else granted;
    EverythingIsAll(Held(acl, To(plan.app)));
    assert Held(Revoke(acl, To(plan.app), ALL_PRIVILEGES), To(plan.app)) == {};
    GrantEachHolds(updatable, plan.readers, {Select});
  }

  /** The contract has nothing to add to the list of a relation, nor to take from it. */
  predicate ListDeclared(plan: Plan, sp: SchemaPlan, name: Name, kind: RelationKind, acl: Acl) {
    if TableLike(kind) then
      && To(plan.app) in acl && acl[To(plan.app)] == TableEntry(plan, sp, name, kind, To(plan.app), {})
      && forall reader :: reader in plan.readers ==> Select in Held(acl, To(reader))
    else kind == Sequence ==> To(plan.app) in acl && sp.sequencePrivileges <= acl[To(plan.app)]
  }

  lemma ListDeclaredIff(plan: Plan, sp: SchemaPlan, name: Name, kind: RelationKind, acl: Acl)
    ensures RelationAcl(plan, sp, name, kind, acl) == acl <==> ListDeclared(plan, sp, name, kind, acl)
  {
    var after := RelationAcl(plan, sp, name, kind, acl);
    if TableLike(kind) {
      RelationAclHolds(plan, sp, name, kind, acl);
      if after == acl {
        assert Held(acl, To(plan.app)) == TableEntry(plan, sp, name, kind, To(plan.app), Held(acl, To(plan.app)));
        forall reader | reader in plan.readers
          ensures Select in Held(acl, To(reader))
        {
          assert Held(acl, To(reader)) == TableEntry(plan, sp, name, kind, To(reader), Held(acl, To(reader)));
        }
      } else if ListDeclared(plan, sp, name, kind, acl) {
        SameAcl(after, acl);
      }
    } else if kind == Sequence && ListDeclared(plan, sp, name, kind, acl) {
      SameAcl(after, acl);
    }
  }

  predicate FunctionDeclared(plan: Plan, sp: SchemaPlan, acl: Acl) {
    To(plan.app) in acl && sp.functionPrivileges <= acl[To(plan.app)]
  }

  /** Every list of a schema that the admin may write is as declared. */
  predicate ListsDeclared(s: Session, edges: Edges, plan: Plan, sp: SchemaPlan, schema: Schema) {
    && (forall name :: name in schema.relations && Acts(s, edges, schema.relations[name].owner) ==>
          ListDeclared(plan, sp, name, schema.relations[name].kind, schema.relations[name].acl))
    && (forall name :: name in schema.routines && FunctionsGranted(sp, schema.routines[name])
                       && Acts(s, edges, schema.routines[name].owner) ==>
          FunctionDeclared(plan, sp, schema.routines[name].acl))
  }

  // ---- One schema settles ----

  lemma RelationAclSettles(plan: Plan, sp: SchemaPlan, name: Name, kind: RelationKind, acl: Acl)
    ensures RelationAcl(plan, sp, name, kind, RelationAcl(plan, sp, name, kind, acl))
      == RelationAcl(plan, sp, name, kind, acl)
  {
    var once := RelationAcl(plan, sp, name, kind, acl);
    var twice := RelationAcl(plan, sp, name, kind, once);
    if TableLike(kind) {
      RelationAclHolds(plan, sp, name, kind, acl);
      RelationAclHolds(plan, sp, name, kind, once);
      forall g
        ensures Held(twice, g) == Held(once, g)
      {
        assert Held(once, g) == TableEntry(plan, sp, name, kind, g, Held(acl, g));
      }
      SameAcl(twice, once);
    } else {
      SameAcl(twice, once);
    }
  }

  /** Ownership, once reassigned, is not reassigned again. */
  lemma OwnershipSettles(s: Session, edges: Edges, plan: Plan, sp: SchemaPlan, relations: map<Name, Relation>,
                         name: Name)
    requires name in relations
    ensures var after := RelationsAfter(s, edges, plan, sp, relations);
      && after[name].owner == OwnerAfter(plan, sp, relations, name) && after[name].kind == relations[name].kind
      && OwnerAfter(plan, sp, after, name) == after[name].owner
      && Reassigned(plan, sp, after, name) == after[name]
  {
    var after := RelationsAfter(s, edges, plan, sp, relations);
    var r := relations[name];
    assert after[name] == RelationAfter(s, edges, plan, sp, relations, name);
    if r.serial.Some? && r.serial.value in relations {
      assert after[r.serial.value] == RelationAfter(s, edges, plan, sp, relations, r.serial.value);
      assert !Moves(plan, sp, after, r.serial.value);
    }
  }

  lemma RelationSettles(s: Session, first: Edges, second: Edges, plan: Plan, sp: SchemaPlan,
                        relations: map<Name, Relation>, name: Name)
    requires name in relations
    ensures var after := RelationsAfter(s, first, plan, sp, relations); var r := after[name];
      RelationAfter(s, second, plan, sp, after, name) == r <==>
        (Acts(s, second, r.owner) ==> ListDeclared(plan, sp, name, r.kind, r.acl))
  {
    var r := RelationsAfter(s, first, plan, sp, relations)[name];
    OwnershipSettles(s, first, plan, sp, relations, name);
    ListDeclaredIff(plan, sp, name, r.kind, r.acl);
  }

  /** What the first run could write it left as declared. */
  lemma RelationWritten(s: Session, first: Edges, plan: Plan, sp: SchemaPlan, relations: map<Name, Relation>,
                        name: Name)
    requires name in relations
    requires Covered(relations[name].kind) ==> Acts(s, first, OwnerAfter(plan, sp, relations, name))
    ensures var r := RelationsAfter(s, first, plan, sp, relations)[name]; ListDeclared(plan, sp, name, r.kind, r.acl)
  {
    var moved := Reassigned(plan, sp, relations, name);
    var r := RelationsAfter(s, first, plan, sp, relations)[name];
    assert r == RelationAfter(s, first, plan, sp, relations, name);
    RelationAclSettles(plan, sp, name, moved.kind, moved.acl);
    ListDeclaredIff(plan, sp, name, r.kind, r.acl);
  }

  lemma RoutineSettles(s: Session, first: Edges, second: Edges, plan: Plan, sp: SchemaPlan, r: Routine)
    ensures var once := RoutineAfter(s, first, plan, sp, r);
      RoutineAfter(s, second, plan, sp, once) == once <==>
        (FunctionsGranted(sp, once) && Acts(s, second, once.owner) ==> FunctionDeclared(plan, sp, once.acl))
  {
    var once := RoutineAfter(s, first, plan, sp, r);
    assert RoutineReassigned(plan, once) == once;
    if FunctionsGranted(sp, once) && Acts(s, second, once.owner) {
      var after := Grant(once.acl, To(plan.app), sp.functionPrivileges);
      if FunctionDeclared(plan, sp, once.acl) {
        SameAcl(after, once.acl);
      } else {
        assert To(plan.app) in after && sp.functionPrivileges <= after[To(plan.app)];
      }
    }
  }

  lemma SchemaAclSettles(plan: Plan, sp: SchemaPlan, owner: Role, acl: Acl)
    ensures SchemaAcl(plan, sp, plan.ddl, SchemaAcl(plan, sp, owner, acl)) == SchemaAcl(plan, sp, owner, acl)
  {
    var once := SchemaAcl(plan, sp, owner, acl);
    var twice := SchemaAcl(plan, sp, plan.ddl, once);
    SchemaAclHolds(plan, sp, owner, acl);
    SchemaAclHolds(plan, sp, plan.ddl, once);
    forall g
      ensures Held(twice, g) == Held(once, g)
    {
      assert Held(once, g) == SchemaEntry(plan, sp, g, Held(OwnerMoved(acl, owner, plan.ddl), g));
    }
    SameAcl(twice, once);
  }

  /** One entry of a schema's access list after the block. */
  function SchemaEntry(plan: Plan, sp: SchemaPlan, g: Grantee, held: set<Privilege>): set<Privilege> {
    (if g == Public then held - {Create}
     else if g == To(plan.app) then (if sp.appCanCreate then held + {Usage, Create} else held + {Usage} - {Create})
     else held) + ReaderShare(plan.readers, g, {Usage})
  }

  lemma SchemaAclHolds(plan: Plan, sp: SchemaPlan, owner: Role, acl: Acl)
    ensures forall g ::
      Held(SchemaAcl(plan, sp, owner, acl), g) == SchemaEntry(plan, sp, g, Held(OwnerMoved(acl, owner, plan.ddl), g))
    ensures forall g ::
      g in SchemaAcl(plan, sp, owner, acl) <==>
      g in OwnerMoved(acl, owner, plan.ddl) || g == Public || g == To(plan.app) || (g.To? && g.role in plan.readers)
  {
    var moved := Revoke(OwnerMoved(acl, owner, plan.ddl), Public, {Create});
    var used := Grant(moved, To(plan.app), {Usage});
    var decided :=
      if sp.appCanCreate then Grant(used, To(plan.app), {Create}) else Revoke(used, To(plan.app), {Create});
    GrantEachHolds(decided, plan.readers, {Usage});
    assert Public in decided && To(plan.app) in decided;
  }

  /** One default access list after the block, for an admin who is not the DDL role. */
  function DefaultEntry(admin: Role, plan: Plan, sp: SchemaPlan, role: Role, kind: ObjectKind, acl: Acl): Acl {
    if role == plan.ddl then
      match kind
      case OnTables => GrantEach(Grant(acl, To(plan.app), sp.tablePrivileges), plan.readers, {Select})
      case OnSequences => Grant(acl, To(plan.app), sp.sequencePrivileges)
      case OnFunctions => if sp.functionPrivileges == {} then acl else Grant(acl, To(plan.app), sp.functionPrivileges)
    else if role == admin && sp.retiresAdminDefaults && kind != OnFunctions then
      Revoke(acl, To(plan.app), ALL_PRIVILEGES)
    else acl
  }

  /** The default access lists that the block writes. */
  predicate DefaultWritten(admin: Role, plan: Plan, sp: SchemaPlan, role: Role, kind: ObjectKind) {
    if role == plan.ddl then kind != OnFunctions || sp.functionPrivileges != {}
    else role == admin && sp.retiresAdminDefaults && kind != OnFunctions
  }

  lemma {:induction false} GrantDefaultEachHolds(defaults: Defaults, role: Role, kind: ObjectKind, grantees: seq<Role>,
                                                 privileges: set<Privilege>)
    requires (role, kind) in defaults
    ensures GrantDefaultEach(defaults, role, kind, grantees, privileges)
      == defaults[(role, kind) := GrantEach(defaults[(role, kind)], grantees, privileges)]
    decreases |grantees|
  {
    if grantees == [] {
      assert defaults == defaults[(role, kind) := defaults[(role, kind)]];
    } else {
      GrantDefaultEachHolds(defaults, role, kind, grantees[..|grantees| - 1], privileges);
    }
  }

  lemma DefaultsHold(admin: Role, plan: Plan, sp: SchemaPlan, defaults: Defaults, role: Role, kind: ObjectKind)
    requires admin != plan.ddl
    ensures var after := DefaultsAfter(admin, plan, sp, defaults);
      && DefaultOf(after, role, kind) == DefaultEntry(admin, plan, sp, role, kind, DefaultOf(defaults, role, kind))
      && ((role, kind) in after <==> (role, kind) in defaults || DefaultWritten(admin, plan, sp, role, kind))
  {
    var tables := GrantDefault(defaults, plan.ddl, OnTables, plan.app, sp.tablePrivileges);
    var sequences := GrantDefault(tables, plan.ddl, OnSequences, plan.app, sp.sequencePrivileges);
    var functions :=
      if sp.functionPrivileges == {} then sequences
      else GrantDefault(sequences, plan.ddl, OnFunctions, plan.app, sp.functionPrivileges);
    var retired :=
      if !sp.retiresAdminDefaults then functions
      else RevokeDefault(RevokeDefault(functions, admin, OnTables, plan.app), admin, OnSequences, plan.app);
    DefaultPut(defaults, plan.ddl, OnTables,
      Grant(DefaultOf(defaults, plan.ddl, OnTables), To(plan.app), sp.tablePrivileges), role, kind);
    DefaultPut(tables, plan.ddl, OnSequences,
      Grant(DefaultOf(tables, plan.ddl, OnSequences), To(plan.app), sp.sequencePrivileges), role, kind);
    DefaultPut(sequences, plan.ddl, OnFunctions,
      Grant(DefaultOf(sequences, plan.ddl, OnFunctions), To(plan.app), sp.functionPrivileges), role, kind);
    var first := RevokeDefault(functions, admin, OnTables, plan.app);
    DefaultPut(functions, admin, OnTables, Revoke(DefaultOf(functions, admin, OnTables), To(plan.app), ALL_PRIVILEGES),
      role, kind);
    DefaultPut(first, admin, OnSequences, Revoke(DefaultOf(first, admin, OnSequences), To(plan.app), ALL_PRIVILEGES),
      role, kind);
    ReadersLast(plan, retired, role, kind);
  }

  /** Writing one default access list. */
  lemma DefaultPut(defaults: Defaults, writtenRole: Role, writtenKind: ObjectKind, acl: Acl, role: Role,
                   kind: ObjectKind)
    ensures var after := defaults[(writtenRole, writtenKind) := acl];
      && DefaultOf(after, role, kind)
        == (if role == writtenRole && kind == writtenKind then acl else DefaultOf(defaults, role, kind))
      && ((role, kind) in after <==> (role, kind) in defaults || (role == writtenRole && kind == writtenKind))
  {}

  lemma ReadersLast(plan: Plan, defaults: Defaults, role: Role, kind: ObjectKind)
    requires (plan.ddl, OnTables) in defaults
    ensures var after := GrantDefaultEach(defaults, plan.ddl, OnTables, plan.readers, {Select});
      && DefaultOf(after, role, kind) == (if role == plan.ddl && kind == OnTables
           then GrantEach(DefaultOf(defaults, role, kind), plan.readers, {Select}) else DefaultOf(defaults, role, kind))
      && ((role, kind) in after <==> (role, kind) in defaults)
  {
    GrantDefaultEachHolds(defaults, plan.ddl, OnTables, plan.readers, {Select});
    DefaultPut(defaults, plan.ddl, OnTables, GrantEach(defaults[(plan.ddl, OnTables)], plan.readers, {Select}), role,
      kind);
  }

  lemma DefaultEntrySettles(admin: Role, plan: Plan, sp: SchemaPlan, role: Role, kind: ObjectKind, acl: Acl)
    ensures DefaultEntry(admin, plan, sp, role, kind, DefaultEntry(admin, plan, sp, role, kind, acl))
         == DefaultEntry(admin, plan, sp, role, kind, acl)
  {
    var once := DefaultEntry(admin, plan, sp, role, kind, acl);
    var twice := DefaultEntry(admin, plan, sp, role, kind, once);
    if role == plan.ddl && kind == OnTables {
      GrantEachHolds(Grant(acl, To(plan.app), sp.tablePrivileges), plan.readers, {Select});
      GrantEachHolds(Grant(once, To(plan.app), sp.tablePrivileges), plan.readers, {Select});
    }
    SameAcl(twice, once);
  }

  lemma DefaultsSettle(admin: Role, plan: Plan, sp: SchemaPlan, defaults: Defaults)
    requires admin != plan.ddl
    ensures DefaultsAfter(admin, plan, sp, DefaultsAfter(admin, plan, sp, defaults))
      == DefaultsAfter(admin, plan, sp, defaults)
  {
    var once := DefaultsAfter(admin, plan, sp, defaults);
    var twice := DefaultsAfter(admin, plan, sp, once);
    forall role, kind
      ensures (role, kind) in twice <==> (role, kind) in once
      ensures DefaultOf(twice, role, kind) == DefaultOf(once, role, kind)
    {
      DefaultsHold(admin, plan, sp, defaults, role, kind);
      DefaultsHold(admin, plan, sp, once, role, kind);
      DefaultEntrySettles(admin, plan, sp, role, kind, DefaultOf(defaults, role, kind));
    }
    forall key | key in twice
      ensures key in once && twice[key] == once[key]
    {
      assert DefaultOf(twice, key.0, key.1) == DefaultOf(once, key.0, key.1);
    }
    forall key | key in once
      ensures key in twice
    {
      assert (key.0, key.1) in twice;
    }
  }

  /** The second run acts for no object that the first did not act for. */
  ghost predicate ActsNoMore(s: Session, first: Edges, second: Edges, plan: Plan, sp: SchemaPlan, x: Schema) {
    && (forall name :: name in x.relations && Covered(x.relations[name].kind) ==>
          var owner := OwnerAfter(plan, sp, x.relations, name); Acts(s, second, owner) ==> Acts(s, first, owner))
    && (forall name :: name in x.routines && FunctionsGranted(sp, x.routines[name]) ==>
          var owner := RoutineReassigned(plan, x.routines[name]).owner;
            Acts(s, second, owner) ==> Acts(s, first, owner))
  }

  lemma RelationsSettleIff(s: Session, first: Edges, second: Edges, plan: Plan, sp: SchemaPlan, x: Schema)
    ensures var after := RelationsAfter(s, first, plan, sp, x.relations);
      RelationsAfter(s, second, plan, sp, after) == after <==>
        forall name :: name in after && Acts(s, second, after[name].owner) ==>
          ListDeclared(plan, sp, name, after[name].kind, after[name].acl)
  {
    var after := RelationsAfter(s, first, plan, sp, x.relations);
    var twice := RelationsAfter(s, second, plan, sp, after);
    forall name | name in after
      ensures twice[name] == after[name]
        <==> (Acts(s, second, after[name].owner) ==> ListDeclared(plan, sp, name, after[name].kind, after[name].acl))
    {
      RelationSettles(s, first, second, plan, sp, x.relations, name);
    }
  }

  lemma RoutinesSettleIff(s: Session, first: Edges, second: Edges, plan: Plan, sp: SchemaPlan, x: Schema)
    ensures var after := RoutinesAfter(s, first, plan, sp, x.routines);
      RoutinesAfter(s, second, plan, sp, after) == after <==>
        forall name :: name in after && FunctionsGranted(sp, after[name]) && Acts(s, second, after[name].owner) ==>
          FunctionDeclared(plan, sp, after[name].acl)
  {
    var after := RoutinesAfter(s, first, plan, sp, x.routines);
    var twice := RoutinesAfter(s, second, plan, sp, after);
    forall name | name in after
      ensures twice[name] == after[name] <==>
        (FunctionsGranted(sp, after[name]) && Acts(s, second, after[name].owner) ==>
           FunctionDeclared(plan, sp, after[name].acl))
    {
      RoutineSettles(s, first, second, plan, sp, x.routines[name]);
    }
  }

  /** A schema that has been through its block comes through it again unchanged exactly when its lists are declared. */
  lemma SchemaSettlesIff(s: Session, first: Edges, second: Edges, plan: Plan, sp: SchemaPlan, x: Schema)
    requires s.admin != plan.ddl
    ensures var once := SchemaAfter(s, first, plan, sp, x);
      SchemaAfter(s, second, plan, sp, once) == once <==> ListsDeclared(s, second, plan, sp, once)
  {
    SchemaAclSettles(plan, sp, x.owner, x.acl);
    DefaultsSettle(s.admin, plan, sp, x.defaults);
    RelationsSettleIff(s, first, second, plan, sp, x);
    RoutinesSettleIff(s, first, second, plan, sp, x);
  }

  lemma RelationsWritten(s: Session, first: Edges, second: Edges, plan: Plan, sp: SchemaPlan, x: Schema)
    requires ActsNoMore(s, first, second, plan, sp, x)
    ensures var after := RelationsAfter(s, first, plan, sp, x.relations);
      forall name :: name in after && Acts(s, second, after[name].owner) ==>
        ListDeclared(plan, sp, name, after[name].kind, after[name].acl)
  {
    var after := RelationsAfter(s, first, plan, sp, x.relations);
    forall name | name in after && Acts(s, second, after[name].owner)
      ensures ListDeclared(plan, sp, name, after[name].kind, after[name].acl)
    {
      OwnershipSettles(s, first, plan, sp, x.relations, name);
      RelationWritten(s, first, plan, sp, x.relations, name);
    }
  }

  lemma RoutinesWritten(s: Session, first: Edges, second: Edges, plan: Plan, sp: SchemaPlan, x: Schema)
    requires ActsNoMore(s, first, second, plan, sp, x)
    ensures var after := RoutinesAfter(s, first, plan, sp, x.routines);
      forall name :: name in after && FunctionsGranted(sp, after[name]) && Acts(s, second, after[name].owner) ==>
        FunctionDeclared(plan, sp, after[name].acl)
  {
    var after := RoutinesAfter(s, first, plan, sp, x.routines);
    forall name | name in after && FunctionsGranted(sp, after[name]) && Acts(s, second, after[name].owner)
      ensures FunctionDeclared(plan, sp, after[name].acl)
    {
      assert after[name] == RoutineAfter(s, first, plan, sp, x.routines[name]);
    }
  }

  /** Where the second run acts for no object that the first did not act for, nothing is left to declare. */
  lemma SchemaSettles(s: Session, first: Edges, second: Edges, plan: Plan, sp: SchemaPlan, x: Schema)
    requires s.admin != plan.ddl && ActsNoMore(s, first, second, plan, sp, x)
    ensures ListsDeclared(s, second, plan, sp, SchemaAfter(s, first, plan, sp, x))
    ensures SchemaAfter(s, second, plan, sp, SchemaAfter(s, first, plan, sp, x)) == SchemaAfter(s, first, plan, sp, x)
  {
    RelationsWritten(s, first, second, plan, sp, x);
    RoutinesWritten(s, first, second, plan, sp, x);
    SchemaSettlesIff(s, first, second, plan, sp, x);
  }
}
