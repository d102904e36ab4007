/** What PostgreSQL refuses of the bootstrap, one obstacle at a time: each of them alone keeps a block from its end. */
module DbObstacles {
  import opened Common
  import opened DbCatalog
  import opened DbContract
  import opened DbContractProofs
  import opened DbContractTheorems
  import opened DbFinishing
  import opened DbByKind

  /** The admin is no superuser, and no chain of inheriting memberships leads from it to the role. */
  ghost predicate OutOfReach(s: Session, edges: Edges, role: Role) {
    s.admin !in s.superusers && forall n: nat :: !Reach(Links(edges, CanUse), s.admin, role, n)
  }

  lemma OutOfReachIff(s: Session, edges: Edges, role: Role)
    ensures OutOfReach(s, edges, role) <==> !Acts(s, edges, role)
  {
    var links := Links(edges, CanUse);
    if !Acts(s, edges, role) {
      forall n: nat
        ensures !Reach(links, s.admin, role, n)
      {
        if Reach(links, s.admin, role, n) {
          ReachBound(links, s.admin, role, n);
        }
      }
    }
  }

  /** A schema of somebody whose privileges the admin cannot use stays theirs, and stops the block. */
  lemma ForeignSchemaStops(s: Session, plan: Plan, sp: SchemaPlan, scan: Scan, schema: Schema, edges: Edges)
    requires Enumerates(scan) && schema.owner != plan.ddl && OutOfReach(s, edges, schema.owner)
    ensures !BlockRuns(s, plan, sp, scan, schema, edges)
  {
    OutOfReachIff(s, edges, schema.owner);
  }

  /** So does a DDL role that the admin cannot act for. */
  lemma UnreachableDdlStops(s: Session, plan: Plan, sp: SchemaPlan, scan: Scan, schema: Schema, edges: Edges)
    requires Enumerates(scan) && OutOfReach(s, edges, plan.ddl)
    ensures !BlockRuns(s, plan, sp, scan, schema, edges)
  {
    OutOfReachIff(s, edges, plan.ddl);
  }

  /** The list holds nothing for PUBLIC, nor for any role whose privileges the admin can use. */
  ghost predicate NothingFor(s: Session, edges: Edges, acl: Acl) {
    Held(acl, Public) == {} && forall role :: !OutOfReach(s, edges, role) ==> Held(acl, To(role)) == {}
  }

  /** An extension's table of somebody out of reach, on which the admin holds nothing at all: the grants stop. */
  lemma UntouchableTableStops(s: Session, plan: Plan, sp: SchemaPlan, scan: Scan, schema: Schema, edges: Edges,
                              name: Name)
    requires Enumerates(scan) && name in schema.relations && Selectable(schema.relations[name].kind)
    requires schema.relations[name].extension && schema.relations[name].serial.None?
    requires var later := EdgesAtGrants(s, plan, sp, scan, schema, edges);
      OutOfReach(s, later, schema.relations[name].owner) && NothingFor(s, later, schema.relations[name].acl)
    ensures !BlockRuns(s, plan, sp, scan, schema, edges)
  {
    var later, r := EdgesAtGrants(s, plan, sp, scan, schema, edges), schema.relations[name];
    OutOfReachIff(s, later, r.owner);
    assert Reassigned(plan, sp, schema.relations, name) == r;
    forall g | g in r.acl && r.acl[g] != {}
      ensures !(g.Public? || Acts(s, later, g.role))
    {
      if g.To? {
        OutOfReachIff(s, later, g.role);
        assert Held(r.acl, To(g.role)) != {};
      }
    }
  }

  /** Nobody may create in the schema by PUBLIC's entry, its own, or that of a role it has the privileges of. */
  ghost predicate CannotCreate(s: Session, edges: Edges, role: Role, acl: Acl) {
    && role !in s.superusers && Create !in Held(acl, Public)
    && forall other :: HasRole(s.superusers, edges, role, other, CanUse) ==> Create !in Held(acl, To(other))
  }

  /** A relation to be given to a role that may not create in the schema: that row of the loop stops it. */
  lemma NoCreateStops(s: Session, acl: Acl, p: Pass, owner: Role, target: Role)
    requires s.admin !in s.superusers && owner != target
    requires CannotCreate(s, TakeTarget(s, TakeOwner(s, p, owner), target).edges, target, acl)
    ensures !RelationRuns(s, acl, p, owner, target)
  {
    var edges := TakeTarget(s, TakeOwner(s, p, owner), target).edges;
    forall g | g in acl && Create in acl[g]
      ensures !(g.Public? || HasRole(s.superusers, edges, target, g.role, CanUse))
    {
      if g.To? {
        assert Create in Held(acl, To(g.role));
      }
    }
  }

  /**
    An owner out of reach whose role the admin may not grant itself stops the row, of either loop: a superuser, or from
    PostgreSQL 16 on a role that nobody has the admin option of.
   */
  lemma UntakableOwnerStops(s: Session, plan: Plan, acl: Acl, p: Pass, r: Routine, target: Role)
    requires r.owner != target && r.owner != s.admin && OutOfReach(s, p.edges, r.owner)
    requires r.owner in s.superusers
      || (s.pg16 && forall pair :: pair in p.edges && pair.1 == r.owner ==> !p.edges[pair].admin)
    ensures !RelationRuns(s, acl, p, r.owner, target) && !RoutineRuns(s, plan, acl, p, r)
  {
    OutOfReachIff(s, p.edges, r.owner);
  }

  /** A function whose new owner may not create in the schema, or that the admin cannot act as, stays where it is. */
  lemma NoCreateStopsFunction(s: Session, plan: Plan, acl: Acl, p: Pass, r: Routine)
    requires s.admin !in s.superusers && CannotCreate(s, TakeOwner(s, p, r.owner).edges, plan.ddl, acl)
    ensures !RoutineRuns(s, plan, acl, p, r)
  {
    var edges := TakeOwner(s, p, r.owner).edges;
    forall g | g in acl && Create in acl[g]
      ensures !(g.Public? || HasRole(s.superusers, edges, plan.ddl, g.role, CanUse))
    {
      if g.To? {
        assert Create in Held(acl, To(g.role));
      }
    }
  }

  /** The row of that place goes through, after the rows before it. */
  ghost predicate RowRuns(s: Session, plan: Plan, sp: SchemaPlan, acl: Acl, relations: map<Name, Relation>,
                          before: seq<Name>, name: Name, p: Pass)
    requires name in relations && forall earlier :: earlier in before ==> earlier in relations
  {
    RelationRuns(s, acl, RelationLoop(s, plan, sp, relations, before, p), relations[name].owner,
                 Target(plan, sp, name))
  }

  lemma LoopRunsStep(s: Session, plan: Plan, sp: SchemaPlan, acl: Acl, relations: map<Name, Relation>,
                     names: seq<Name>, name: Name, p: Pass)
    requires name in relations && forall earlier :: earlier in names ==> earlier in relations
    ensures RelationLoopRuns(s, plan, sp, acl, relations, names + [name], p) <==>
      RelationLoopRuns(s, plan, sp, acl, relations, names, p) && RowRuns(s, plan, sp, acl, relations, names, name, p)
  {
    assert (names + [name])[..|names|] == names;
  }

  /** One row that stops is enough to stop the whole block's reassignment. */
  lemma {:induction false} RowStopsLoop(s: Session, plan: Plan, sp: SchemaPlan, acl: Acl,
                                        relations: map<Name, Relation>, names: seq<Name>, p: Pass, k: nat)
    requires (forall name :: name in names ==> name in relations) && k < |names|
    requires !RowRuns(s, plan, sp, acl, relations, names[..k], names[k], p)
    ensures !RelationLoopRuns(s, plan, sp, acl, relations, names, p)
    decreases |names|
  {
    var n := |names| - 1;
    assert names == names[..n] + [names[n]];
    LoopRunsStep(s, plan, sp, acl, relations, names[..n], names[n], p);
    if k < n {
      assert names[..n][..k] == names[..k];
      RowStopsLoop(s, plan, sp, acl, relations, names[..n], p, k);
    }
  }

  /** ALTER .. OWNER TO: the new owner holds what either held, the old one nothing, and everybody else what they did. */
  lemma OwnerMovedMeans(acl: Acl, old_: Role, new_: Role, g: Grantee)
    ensures Held(OwnerMoved(acl, old_, new_), g) ==
      if old_ == new_ then Held(acl, g)
      else if g == To(new_) then Held(acl, To(new_)) + Held(acl, To(old_))
      else if g == To(old_) then {}
      else Held(acl, g)
  {}
}
