/** Main results about the ownership contract: verification passes, memberships are given back, a second run settles. */
module DbContractTheorems {
  import opened Common
  import opened DbCatalog
  import opened DbContract
  import opened DbContractProofs

  // ---- Memberships ----

  ghost predicate SameEdge(a: Edges, b: Edges, member: Role, role: Role) {
    ((member, role) in a <==> (member, role) in b) && ((member, role) in a ==> a[(member, role)] == b[(member, role)])
  }

  /** Only the admin's memberships in these roles may differ. */
  ghost predicate Untouched(s: Session, a: Edges, b: Edges, touched: set<Role>) {
    forall member, role :: member != s.admin || role !in touched ==> SameEdge(a, b, member, role)
  }

  lemma UntouchedThrough(s: Session, a: Edges, b: Edges, c: Edges, first: set<Role>, second: set<Role>, all: set<Role>)
    requires Untouched(s, a, b, first) && Untouched(s, b, c, second) && first <= all && second <= all
    ensures Untouched(s, a, c, all)
  {
    forall member, role | member != s.admin || role !in all
      ensures SameEdge(a, c, member, role)
    {
      assert SameEdge(a, b, member, role) && SameEdge(b, c, member, role);
    }
  }

  /** Changing or removing one membership of the admin. */
  lemma OneEdge(s: Session, edges: Edges, role: Role, edge: Edge)
    ensures Untouched(s, edges, edges[(s.admin, role) := edge], {role})
    ensures Untouched(s, edges, edges - {(s.admin, role)}, {role})
    ensures Untouched(s, edges, edges, {role})
  {}

  function Names(roles: seq<Role>): set<Role> {
    set role | role in roles
  }

  ghost predicate Tracked(s: Session, before: Edges, p: Pass) {
    Untouched(s, before, p.edges, Names(p.granted))
  }

  lemma TakeTracked(s: Session, before: Edges, p: Pass, role: Role)
    requires Tracked(s, before, p)
    ensures Tracked(s, before, Take(s, p, role))
  {
    var q := Take(s, p, role);
    assert Names(q.granted) == Names(p.granted) + {role};
    OneEdge(s, p.edges, role, q.edges[(s.admin, role)]);
    UntouchedThrough(s, before, p.edges, q.edges, Names(p.granted), {role}, Names(q.granted));
  }

  lemma {:induction false} RelationLoopTracked(s: Session, plan: Plan, sp: SchemaPlan, relations: map<Name, Relation>,
                                               names: seq<Name>, before: Edges, p: Pass)
    requires forall name :: name in names ==> name in relations
    requires Tracked(s, before, p)
    ensures Tracked(s, before, RelationLoop(s, plan, sp, relations, names, p))
    decreases |names|
  {
    if names != [] {
      var n := |names| - 1;
      RelationLoopTracked(s, plan, sp, relations, names[..n], before, p);
      var q := RelationLoop(s, plan, sp, relations, names[..n], p);
      var owner, target := relations[names[n]].owner, Target(plan, sp, names[n]);
      TakeTracked(s, before, q, owner);
      TakeTracked(s, before, q, target);
      TakeTracked(s, before, Take(s, q, owner), target);
    }
  }

  lemma {:induction false} RoutineLoopTracked(s: Session, routines: map<Name, Routine>, names: seq<Name>, before: Edges,
                                              p: Pass)
    requires forall name :: name in names ==> name in routines
    requires Tracked(s, before, p)
    ensures Tracked(s, before, RoutineLoop(s, routines, names, p))
    decreases |names|
  {
    if names != [] {
      var n := |names| - 1;
      RoutineLoopTracked(s, routines, names[..n], before, p);
      TakeTracked(s, before, RoutineLoop(s, routines, names[..n], p), routines[names[n]].owner);
    }
  }

  lemma {:induction false} GiveBackCleans(s: Session, edges: Edges, granted: seq<Role>)
    ensures Untouched(s, edges, GiveBack(s, edges, granted), Names(granted))
    ensures forall role :: role in granted ==> Clean(GiveBack(s, edges, granted), s.admin, role)
    decreases |granted|
  {
    if granted != [] {
      var n := |granted| - 1;
      GiveBackCleans(s, edges, granted[..n]);
      assert granted == granted[..n] + [granted[n]];
      assert Names(granted) == Names(granted[..n]) + {granted[n]};
      var middle := GiveBack(s, edges, granted[..n]);
      OneEdge(s, middle, granted[n],
        Edge((s.admin, granted[n]) in middle && middle[(s.admin, granted[n])].admin, false, false));
      UntouchedThrough(s, edges, middle, GiveBack(s, edges, granted), Names(granted[..n]), {granted[n]},
        Names(granted));
    }
  }

  /** Every membership taken is left without abilities, and no other has changed. */
  ghost predicate GivenBack(s: Session, before: Edges, after: Edges, granted: seq<Role>) {
    && Untouched(s, before, after, Names(granted))
    && forall role :: role in granted ==> Clean(after, s.admin, role)
  }

  lemma TakesReturn(s: Session, plan: Plan, sp: SchemaPlan, scan: Scan, schema: Schema, edges: Edges)
    requires Enumerates(scan)
    ensures GivenBack(s, edges, EdgesAtGrants(s, plan, sp, scan, schema, edges),
      ReassignTakes(s, plan, sp, scan, schema, edges).granted)
  {
    var managed, stray := scan(ManagedNames(schema)), scan(StrayRoutines(plan, schema));
    var start := Pass(edges, []);
    RelationLoopTracked(s, plan, sp, schema.relations, managed, edges, start);
    RoutineLoopTracked(s, schema.routines, stray, edges, RelationLoop(s, plan, sp, schema.relations, managed, start));
    var takes := ReassignTakes(s, plan, sp, scan, schema, edges);
    GiveBackCleans(s, takes.edges, takes.granted);
    UntouchedThrough(s, edges, takes.edges, GiveBack(s, takes.edges, takes.granted),
      Names(takes.granted), Names(takes.granted), Names(takes.granted));
  }

  /** One schema block changes only memberships it took, and leaves each of them without abilities. */
  lemma BlockReturns(s: Session, plan: Plan, sp: SchemaPlan, scan: Scan, o: Outcome)
    requires Enumerates(scan)
    ensures var after := SchemaBlock(s, plan, sp, scan, o);
      && o.everGranted <= after.everGranted
      && Untouched(s, o.catalog.edges, after.catalog.edges, Names(after.everGranted[|o.everGranted|..]))
      && forall role :: role in after.everGranted[|o.everGranted|..] ==> Clean(after.catalog.edges, s.admin, role)
  {
    var schema := SchemaOrNew(s.admin, o.catalog.schemas, sp.name);
    var takes := ReassignTakes(s, plan, sp, scan, schema, o.catalog.edges);
    TakesReturn(s, plan, sp, scan, schema, o.catalog.edges);
    assert SchemaBlock(s, plan, sp, scan, o).everGranted[|o.everGranted|..] == takes.granted;
  }

  ghost predicate Returned(s: Session, before: Outcome, after: Outcome) {
    && before.everGranted <= after.everGranted
    && Untouched(s, before.catalog.edges, after.catalog.edges, Names(after.everGranted[|before.everGranted|..]))
    && forall role :: role in after.everGranted[|before.everGranted|..] ==> Clean(after.catalog.edges, s.admin, role)
  }

  lemma ReturnedTwice(s: Session, a: Outcome, b: Outcome, c: Outcome)
    requires Returned(s, a, b) && Returned(s, b, c)
    ensures Returned(s, a, c)
  {
    var ab, bc, ac :=
      b.everGranted[|a.everGranted|..], c.everGranted[|b.everGranted|..], c.everGranted[|a.everGranted|..];
    assert ac == ab + bc;
    assert Names(ac) == Names(ab) + Names(bc);
    UntouchedThrough(s, a.catalog.edges, b.catalog.edges, c.catalog.edges, Names(ab), Names(bc), Names(ac));
    forall role | role in ac
      ensures Clean(c.catalog.edges, s.admin, role)
    {
      if role !in bc {
        assert SameEdge(b.catalog.edges, c.catalog.edges, s.admin, role);
      }
    }
  }

  lemma {:induction false} BlocksReturn(s: Session, plan: Plan, schemas: seq<SchemaPlan>, scan: Scan, o: Outcome)
    requires Enumerates(scan)
    ensures Returned(s, o, SchemaBlocks(s, plan, schemas, scan, o))
    decreases |schemas|
  {
    if schemas != [] {
      var n := |schemas| - 1;
      BlocksReturn(s, plan, schemas[..n], scan, o);
      var middle := SchemaBlocks(s, plan, schemas[..n], scan, o);
      BlockReturns(s, plan, schemas[n], scan, middle);
      ReturnedTwice(s, o, middle, SchemaBlock(s, plan, schemas[n], scan, middle));
    }
  }

  /** New roles bring at most a membership without abilities. */
  lemma {:induction false} EnsureRolesEdges(s: Session, c: Catalog, roles: seq<Role>)
    ensures var after := EnsureRoles(s, c, roles);
      && after.roles == c.roles + Names(roles)
      && after.schemas == c.schemas && after.databaseAcl == c.databaseAcl && after.searchPath == c.searchPath
      && Untouched(s, c.edges, after.edges, after.roles - c.roles)
      && forall role :: Clean(c.edges, s.admin, role) ==> Clean(after.edges, s.admin, role)
    decreases |roles|
  {
    if roles != [] {
      var n := |roles| - 1;
      EnsureRolesEdges(s, c, roles[..n]);
      assert roles == roles[..n] + [roles[n]];
      var middle, after := EnsureRoles(s, c, roles[..n]), EnsureRoles(s, c, roles);
      OneEdge(s, middle.edges, roles[n], Edge(true, false, false));
      UntouchedThrough(s, c.edges, middle.edges, after.edges, middle.roles - c.roles,
        if roles[n] in middle.roles then middle.roles - c.roles else {roles[n]}, after.roles - c.roles);
    }
  }

  /** What the admin's edges may differ in after the whole script. */
  function Touched(plan: Plan, c: Catalog, o: Outcome): set<Role> {
    Names(o.everGranted) + {plan.ddl, plan.app} + (o.catalog.roles - c.roles)
  }

  lemma OpenedEdges(s: Session, plan: Plan, c: Catalog)
    ensures var o := Opened(s, plan, c);
      && Names(o.everGranted) <= {plan.ddl}
      && Untouched(s, c.edges, o.catalog.edges, {plan.ddl} + (o.catalog.roles - c.roles))
      && o.catalog.roles == c.roles + {plan.ddl, plan.app} && o.catalog.schemas == c.schemas
  {
    EnsureRolesEdges(s, c, [plan.ddl, plan.app]);
    assert Names([plan.ddl, plan.app]) == {plan.ddl, plan.app};
    var ensured := EnsureRoles(s, c, [plan.ddl, plan.app]);
    var taken := TakeDdl(s, Pass(ensured.edges, []), plan.ddl);
    OneEdge(s, ensured.edges, plan.ddl, Granted(ensured.edges, s.admin, plan.ddl)[(s.admin, plan.ddl)]);
    UntouchedThrough(s, c.edges, ensured.edges, taken.edges, ensured.roles - c.roles, {plan.ddl},
      {plan.ddl} + (ensured.roles - c.roles));
  }

  lemma {:induction false} BlocksKeepRoles(s: Session, plan: Plan, schemas: seq<SchemaPlan>, scan: Scan, o: Outcome)
    requires Enumerates(scan)
    ensures var after := SchemaBlocks(s, plan, schemas, scan, o).catalog;
      after.roles == o.catalog.roles && after.databaseAcl == o.catalog.databaseAcl
        && after.searchPath == o.catalog.searchPath
    decreases |schemas|
  {
    if schemas != [] {
      BlocksKeepRoles(s, plan, schemas[..|schemas| - 1], scan, o);
    }
  }

  /** Closing: the two contract roles end without abilities, and whatever was clean stays clean. */
  lemma ClosedEdges(s: Session, plan: Plan, o: Outcome)
    requires s.admin != plan.ddl
    ensures var after := Closed(s, plan, o);
      && after.everGranted == o.everGranted && after.catalog.roles == o.catalog.roles + Names(plan.readers)
      && Clean(after.catalog.edges, s.admin, plan.ddl) && Clean(after.catalog.edges, s.admin, plan.app)
      && (forall role :: Clean(o.catalog.edges, s.admin, role) ==> Clean(after.catalog.edges, s.admin, role))
      && (forall member, role ::
            (member != s.admin || role !in {plan.ddl, plan.app} + (after.catalog.roles - o.catalog.roles))
            && !(plan.appMembership && member == plan.ddl && role == plan.app)
            ==> SameEdge(o.catalog.edges, after.catalog.edges, member, role))
  {
    var joined := Joined(plan, o.catalog.edges);
    var pathed :=
      if plan.searchPath.None? then o.catalog.searchPath
      else
        var path := [plan.searchPath.value, "public"];
        o.catalog.searchPath[plan.ddl := path][plan.app := path];
    var reading := o.catalog.(edges := joined, searchPath := pathed);
    EnsureRolesEdges(s, reading, plan.readers);
    var read := EnsureRoles(s, reading, plan.readers);
    var first := Withdrawn(s.pg16, read.edges, s.admin, plan.app);
    var second := Withdrawn(s.pg16, first, s.admin, plan.ddl);
    WithdrawnKeeps(s, read.edges, plan.app);
    WithdrawnKeeps(s, first, plan.ddl);
    forall member, role |
      (member != s.admin || role !in {plan.ddl, plan.app} + (read.roles - o.catalog.roles))
      && !(plan.appMembership && member == plan.ddl && role == plan.app)
      ensures SameEdge(o.catalog.edges, second, member, role)
    {
      assert SameEdge(o.catalog.edges, joined, member, role);
      assert SameEdge(joined, read.edges, member, role);
      assert SameEdge(read.edges, first, member, role);
      assert SameEdge(first, second, member, role);
    }
    forall role | Clean(o.catalog.edges, s.admin, role)
      ensures Clean(second, s.admin, role)
    {
      assert Clean(joined, s.admin, role);
    }
  }

  lemma WithdrawnKeeps(s: Session, edges: Edges, role: Role)
    ensures Untouched(s, edges, Withdrawn(s.pg16, edges, s.admin, role), {role})
    ensures Clean(Withdrawn(s.pg16, edges, s.admin, role), s.admin, role)
    ensures forall other ::
      Clean(edges, s.admin, other) ==> Clean(Withdrawn(s.pg16, edges, s.admin, role), s.admin, other)
  {
    OneEdge(s, edges, role, Edge((s.admin, role) in edges && edges[(s.admin, role)].admin, false, false));
  }

  /**
    After the script the admin holds no usable membership in any role it was granted on the way, however
    many owners were met, nor in the contract's own roles; and apart from the DDL role joining the app
    role, no other membership of anybody has changed.
   */
  lemma MembershipsReturned(s: Session, plan: Plan, scan: Scan, c: Catalog)
    requires Enumerates(scan) && s.admin != plan.ddl
    ensures var o := Bootstrapped(s, plan, scan, c);
      && (forall role ::
        role in o.everGranted || role == plan.ddl || role == plan.app ==> Clean(o.catalog.edges, s.admin, role))
      && (forall member, role ::
            (member != s.admin || role !in Touched(plan, c, o))
              && !(plan.appMembership && member == plan.ddl && role == plan.app)
            ==> SameEdge(c.edges, o.catalog.edges, member, role))
  {
    var start := Opened(s, plan, c);
    var blocks := SchemaBlocks(s, plan, plan.schemas, scan, start);
    OpenedEdges(s, plan, c);
    BlocksReturn(s, plan, plan.schemas, scan, start);
    BlocksKeepRoles(s, plan, plan.schemas, scan, start);
    ClosedEdges(s, plan, blocks);
    var o := Bootstrapped(s, plan, scan, c);
    var later := blocks.everGranted[|start.everGranted|..];
    assert blocks.everGranted == start.everGranted + later;
    forall role | role in o.everGranted
      ensures Clean(o.catalog.edges, s.admin, role)
    {
      if role in start.everGranted {
        assert role in Names(start.everGranted);
      } else {
        assert role in later;
      }
    }
    forall member, role |
      (member != s.admin || role !in Touched(plan, c, o))
        && !(plan.appMembership && member == plan.ddl && role == plan.app)
      ensures SameEdge(c.edges, o.catalog.edges, member, role)
    {
      assert SameEdge(c.edges, start.catalog.edges, member, role);
      assert SameEdge(start.catalog.edges, blocks.catalog.edges, member, role);
      assert SameEdge(blocks.catalog.edges, o.catalog.edges, member, role);
    }
  }

  /**
    What a run that stopped, at whatever statement, has done to the memberships: the admin keeps no usable one that
    it was granted on the way but the DDL role's, and apart from those, from new roles and from the DDL role joining
    the app role, none has changed.
   */
  ghost predicate Halted(s: Session, plan: Plan, before: Catalog, after: Catalog, granted: seq<Role>) {
    && (forall role :: role in granted && role != plan.ddl ==> Clean(after.edges, s.admin, role))
    && (forall member, role ::
          (member != s.admin || role !in Names(granted) + {plan.ddl} + (after.roles - before.roles))
            && !(plan.appMembership && member == plan.ddl && role == plan.app)
          ==> SameEdge(before.edges, after.edges, member, role))
  }

  lemma HaltedOpening(s: Session, plan: Plan, c: Catalog)
    ensures Halted(s, plan, c, EnsureRoles(s, c, [plan.ddl, plan.app]), [])
  {
    EnsureRolesEdges(s, c, [plan.ddl, plan.app]);
  }

  lemma HaltedLater(s: Session, plan: Plan, c: Catalog, o: Outcome, after: Catalog, granted: seq<Role>)
    requires Returned(s, Opened(s, plan, c), o) && o.catalog.roles == Opened(s, plan, c).catalog.roles
    requires GivenBack(s, o.catalog.edges, after.edges, granted) && after.roles == o.catalog.roles
    ensures Halted(s, plan, c, after, o.everGranted + granted)
  {
    var start := Opened(s, plan, c);
    OpenedEdges(s, plan, c);
    var later := o.everGranted[|start.everGranted|..];
    assert o.everGranted == start.everGranted + later;
    assert Names(o.everGranted + granted) == Names(start.everGranted) + Names(later) + Names(granted);
    forall role | role in o.everGranted + granted && role != plan.ddl
      ensures Clean(after.edges, s.admin, role)
    {
      if role !in granted {
        assert role in Names(start.everGranted) ==> role == plan.ddl;
        assert role in later && SameEdge(o.catalog.edges, after.edges, s.admin, role);
      }
    }
    forall member, role | member != s.admin || role !in Names(o.everGranted + granted) + {plan.ddl}
                                                         + (after.roles - c.roles)
      ensures SameEdge(c.edges, after.edges, member, role)
    {
      assert SameEdge(c.edges, start.catalog.edges, member, role);
      assert SameEdge(start.catalog.edges, o.catalog.edges, member, role);
      assert SameEdge(o.catalog.edges, after.edges, member, role);
    }
  }

  lemma HaltedClosing(s: Session, plan: Plan, c: Catalog, o: Outcome, after: Catalog)
    requires s.admin != plan.ddl
    requires Returned(s, Opened(s, plan, c), o) && o.catalog.roles == Opened(s, plan, c).catalog.roles
    requires after.edges == o.catalog.edges || after.edges == Joined(plan, o.catalog.edges)
    requires after.roles == o.catalog.roles
    ensures Halted(s, plan, c, after, o.everGranted)
  {
    HaltedLater(s, plan, c, o, o.catalog, []);
    assert o.everGranted + [] == o.everGranted;
    HaltedJoined(s, plan, c, o.catalog, after, o.everGranted);
  }

  lemma HaltedJoined(s: Session, plan: Plan, before: Catalog, middle: Catalog, after: Catalog, granted: seq<Role>)
    requires s.admin != plan.ddl && Halted(s, plan, before, middle, granted) && after.roles == middle.roles
    requires after.edges == middle.edges || after.edges == Joined(plan, middle.edges)
    ensures Halted(s, plan, before, after, granted)
  {
    forall member, role | !(plan.appMembership && member == plan.ddl && role == plan.app)
      ensures SameEdge(middle.edges, after.edges, member, role)
    {}
    forall role | role in granted && role != plan.ddl
      ensures Clean(after.edges, s.admin, role)
    {
      assert SameEdge(middle.edges, after.edges, s.admin, role);
    }
    forall member, role |
      (member != s.admin || role !in Names(granted) + {plan.ddl} + (after.roles - before.roles))
      && !(plan.appMembership && member == plan.ddl && role == plan.app)
      ensures SameEdge(before.edges, after.edges, member, role)
    {
      assert SameEdge(before.edges, middle.edges, member, role) && SameEdge(middle.edges, after.edges, member, role);
    }
  }

  // ---- Schemas ----

  ghost predicate DistinctNames(schemas: seq<SchemaPlan>) {
    forall i, j :: 0 <= i < j < |schemas| ==> schemas[i].name != schemas[j].name
  }

  /** The memberships at the grants of each block. */
  function GrantEdges(s: Session, plan: Plan, blocks: seq<SchemaPlan>, scan: Scan, o: Outcome): (at: seq<Edges>)
    requires Enumerates(scan)
    ensures |at| == |blocks|
  {
    if blocks == [] then []
    else GrantEdges(s, plan, blocks[..|blocks| - 1], scan, o) + [SchemaBlocks(s, plan, blocks, scan, o).catalog.edges]
  }

  /** What the blocks do to the schemas, given the memberships at the grants of each. */
  function Rewritten(s: Session, plan: Plan, blocks: seq<SchemaPlan>, at: seq<Edges>, schemas: map<Name, Schema>)
    : map<Name, Schema>
    requires |at| == |blocks|
  {
    if blocks == [] then schemas
    else
      var n := |blocks| - 1;
      var before := Rewritten(s, plan, blocks[..n], at[..n], schemas);
      before[blocks[n].name := SchemaAfter(s, at[n], plan, blocks[n], SchemaOrNew(s.admin, before, blocks[n].name))]
  }

  lemma BlockSchemas(s: Session, plan: Plan, sp: SchemaPlan, scan: Scan, o: Outcome, schema: Schema)
    requires Enumerates(scan) && schema == SchemaOrNew(s.admin, o.catalog.schemas, sp.name)
    ensures var after := SchemaBlock(s, plan, sp, scan, o).catalog;
      after.schemas == o.catalog.schemas[sp.name := SchemaAfter(s, after.edges, plan, sp, schema)]
  {}

  lemma {:induction false} BlocksRewrite(s: Session, plan: Plan, blocks: seq<SchemaPlan>, scan: Scan, o: Outcome)
    requires Enumerates(scan)
    ensures SchemaBlocks(s, plan, blocks, scan, o).catalog.schemas
      == Rewritten(s, plan, blocks, GrantEdges(s, plan, blocks, scan, o), o.catalog.schemas)
    decreases |blocks|
  {
    if blocks != [] {
      var n := |blocks| - 1;
      BlocksRewrite(s, plan, blocks[..n], scan, o);
      var before := SchemaBlocks(s, plan, blocks[..n], scan, o);
      BlockSchemas(s, plan, blocks[n], scan, before, SchemaOrNew(s.admin, before.catalog.schemas, blocks[n].name));
      assert GrantEdges(s, plan, blocks, scan, o)[..n] == GrantEdges(s, plan, blocks[..n], scan, o);
    }
  }

  /** No schema but the governed ones changes. */
  lemma {:induction false} RewritingSpares(s: Session, plan: Plan, blocks: seq<SchemaPlan>, at: seq<Edges>,
                                           schemas: map<Name, Schema>, name: Name)
    requires |at| == |blocks| && forall sp :: sp in blocks ==> sp.name != name
    ensures var after := Rewritten(s, plan, blocks, at, schemas);
      (name in after <==> name in schemas) && SchemaOrNew(s.admin, after, name) == SchemaOrNew(s.admin, schemas, name)
    decreases |blocks|
  {
    if blocks != [] {
      var n := |blocks| - 1;
      assert blocks[n] in blocks;
      RewritingSpares(s, plan, blocks[..n], at[..n], schemas, name);
    }
  }

  /** Every governed schema has been through its own block exactly once. */
  lemma {:induction false} RewritingReaches(s: Session, plan: Plan, blocks: seq<SchemaPlan>, at: seq<Edges>,
                                            schemas: map<Name, Schema>, i: nat)
    requires DistinctNames(blocks) && |at| == |blocks| && i < |blocks|
    ensures var sp, after := blocks[i], Rewritten(s, plan, blocks, at, schemas);
      sp.name in after && after[sp.name] == SchemaAfter(s, at[i], plan, sp, SchemaOrNew(s.admin, schemas, sp.name))
    decreases |blocks|
  {
    var n := |blocks| - 1;
    if i == n {
      RewritingSpares(s, plan, blocks[..n], at[..n], schemas, blocks[n].name);
    } else {
      RewritingReaches(s, plan, blocks[..n], at[..n], schemas, i);
    }
  }

  /** The memberships at the grants of each governed schema, from the start of the script. */
  function ScriptEdges(s: Session, plan: Plan, scan: Scan, c: Catalog): (at: seq<Edges>)
    requires Enumerates(scan)
    ensures |at| == |plan.schemas|
  {
    GrantEdges(s, plan, plan.schemas, scan, Opened(s, plan, c))
  }

  /** Each governed schema ends as its own block leaves it. */
  lemma BootstrapReaches(s: Session, plan: Plan, scan: Scan, c: Catalog, i: nat, schema: Schema)
    requires Enumerates(scan) && DistinctNames(plan.schemas) && i < |plan.schemas|
    requires schema == SchemaOrNew(s.admin, c.schemas, plan.schemas[i].name)
    ensures var sp, after := plan.schemas[i], Bootstrapped(s, plan, scan, c).catalog.schemas;
      sp.name in after && after[sp.name] == SchemaAfter(s, ScriptEdges(s, plan, scan, c)[i], plan, sp, schema)
  {
    var start := Opened(s, plan, c);
    OpenedEdges(s, plan, c);
    BlocksRewrite(s, plan, plan.schemas, scan, start);
    RewritingReaches(s, plan, plan.schemas, ScriptEdges(s, plan, scan, c), c.schemas, i);
    ClosedSchemas(s, plan, SchemaBlocks(s, plan, plan.schemas, scan, start));
  }

  lemma ClosedSchemas(s: Session, plan: Plan, o: Outcome)
    ensures Closed(s, plan, o).catalog.schemas == o.catalog.schemas
    ensures Closed(s, plan, o).catalog.databaseAcl == o.catalog.databaseAcl
  {
    var joined := Joined(plan, o.catalog.edges);
    var pathed :=
      if plan.searchPath.None? then o.catalog.searchPath
      else
        var path := [plan.searchPath.value, "public"];
        o.catalog.searchPath[plan.ddl := path][plan.app := path];
    EnsureRolesEdges(s, o.catalog.(edges := joined, searchPath := pathed), plan.readers);
  }

  // ---- Verification passes ----

  /** The app role is nobody's heir, not a superuser, and neither it nor the DDL role runs the script. */
  ghost predicate Separate(s: Session, plan: Plan, c: Catalog) {
    && plan.ddl != plan.app && s.admin != plan.app
    && plan.app !in s.superusers && Standalone(c.edges, plan.app)
  }

  lemma AppStaysStandalone(s: Session, plan: Plan, scan: Scan, c: Catalog)
    requires Enumerates(scan) && Separate(s, plan, c) && s.admin != plan.ddl
    ensures Standalone(Bootstrapped(s, plan, scan, c).catalog.edges, plan.app)
  {
    MembershipsReturned(s, plan, scan, c);
    var after := Bootstrapped(s, plan, scan, c).catalog.edges;
    forall other | (plan.app, other) in after
      ensures !after[(plan.app, other)].inherits
    {
      assert SameEdge(c.edges, after, plan.app, other);
    }
  }

  lemma RelationsOwned(s: Session, edges: Edges, plan: Plan, sp: SchemaPlan, before: Schema, c: Catalog)
    requires sp.name in c.schemas && c.schemas[sp.name] == SchemaAfter(s, edges, plan, sp, before)
    ensures OwnedSchema(plan, sp, c) && OwnedRelations(plan, sp, c)
  {
    forall name | name in before.relations
      ensures c.schemas[sp.name].relations[name] == RelationAfter(s, edges, plan, sp, before.relations, name)
    {}
  }

  /** Default privileges let the app role insert, unless the admin who is being retired is the DDL role itself. */
  lemma DefaultInsertIff(admin: Role, plan: Plan, sp: SchemaPlan, before: Schema, c: Catalog)
    requires sp.name in c.schemas && c.schemas[sp.name].defaults == DefaultsAfter(admin, plan, sp, before.defaults)
    requires Insert in sp.tablePrivileges && sp.retiresAdminDefaults && plan.app !in plan.readers
    ensures DefaultsGrantInsert(plan, sp, c) <==> admin != plan.ddl
  {
    if admin != plan.ddl {
      DefaultsHold(admin, plan, sp, before.defaults, plan.ddl, OnTables);
      GrantEachHolds(Grant(DefaultOf(before.defaults, plan.ddl, OnTables), To(plan.app), sp.tablePrivileges),
        plan.readers, {Select});
    } else {
      RetiredLosesInsert(plan, sp, before.defaults);
    }
  }

  lemma RetiredLosesInsert(plan: Plan, sp: SchemaPlan, defaults: Defaults)
    requires sp.retiresAdminDefaults && plan.app !in plan.readers
    ensures Insert !in Held(DefaultOf(DefaultsAfter(plan.ddl, plan, sp, defaults), plan.ddl, OnTables), To(plan.app))
  {
    var tables := GrantDefault(defaults, plan.ddl, OnTables, plan.app, sp.tablePrivileges);
    var sequences := GrantDefault(tables, plan.ddl, OnSequences, plan.app, sp.sequencePrivileges);
    var functions :=
      if sp.functionPrivileges == {} then sequences
      else GrantDefault(sequences, plan.ddl, OnFunctions, plan.app, sp.functionPrivileges);
    var first := RevokeDefault(functions, plan.ddl, OnTables, plan.app);
    var retired := RevokeDefault(first, plan.ddl, OnSequences, plan.app);
    assert DefaultOf(retired, plan.ddl, OnTables)
      == Revoke(DefaultOf(functions, plan.ddl, OnTables), To(plan.app), ALL_PRIVILEGES);
    GrantDefaultEachHolds(retired, plan.ddl, OnTables, plan.readers, {Select});
    GrantEachHolds(retired[(plan.ddl, OnTables)], plan.readers, {Select});
  }

  lemma SchemaAclDecides(plan: Plan, sp: SchemaPlan, owner: Role, acl: Acl)
    ensures Create !in Held(SchemaAcl(plan, sp, owner, acl), Public)
    ensures Create in Held(SchemaAcl(plan, sp, owner, acl), To(plan.app)) <==> sp.appCanCreate
  {
    SchemaAclHolds(plan, sp, owner, acl);
    assert Held(SchemaAcl(plan, sp, owner, acl), Public)
      == SchemaEntry(plan, sp, Public, Held(OwnerMoved(acl, owner, plan.ddl), Public));
  }

  lemma CreateDecided(superusers: set<Role>, plan: Plan, sp: SchemaPlan, before: Schema, c: Catalog)
    requires sp.name in c.schemas && c.schemas[sp.name].acl == SchemaAcl(plan, sp, before.owner, before.acl)
    requires plan.app !in superusers && Standalone(c.edges, plan.app)
    ensures CreateAsDeclared(superusers, plan, sp, c)
  {
    SchemaAclDecides(plan, sp, before.owner, before.acl);
    StandalonePrivileges(superusers, c.edges, plan.app, SchemaAcl(plan, sp, before.owner, before.acl), Create);
  }

  /** What the service verification asks of one schema. */
  ghost predicate SchemaVerifies(superusers: set<Role>, plan: Plan, sp: SchemaPlan, c: Catalog) {
    && OwnedSchema(plan, sp, c) && OwnedRelations(plan, sp, c)
    && DefaultsGrantInsert(plan, sp, c) && CreateAsDeclared(superusers, plan, sp, c)
  }

  lemma ServiceSchemaVerifies(s: Session, plan: Plan, scan: Scan, c: Catalog, after: Catalog, i: nat)
    requires Enumerates(scan) && DistinctNames(plan.schemas) && i < |plan.schemas|
    requires Insert in plan.schemas[i].tablePrivileges && plan.schemas[i].retiresAdminDefaults
    requires plan.readers == [] && Separate(s, plan, c)
    requires after == Bootstrapped(s, plan, scan, c).catalog
    ensures SchemaVerifies(s.superusers, plan, plan.schemas[i], after) <==> s.admin != plan.ddl
  {
    var sp := plan.schemas[i];
    var before := SchemaOrNew(s.admin, c.schemas, sp.name);
    BootstrapReaches(s, plan, scan, c, i, before);
    RelationsOwned(s, ScriptEdges(s, plan, scan, c)[i], plan, sp, before, after);
    DefaultInsertIff(s.admin, plan, sp, before, after);
    if s.admin != plan.ddl {
      AppStaysStandalone(s, plan, scan, c);
      CreateDecided(s.superusers, plan, sp, before, after);
    }
  }

  /**
    From any catalog in which the service script finishes, it ends where every verification statement passes, if
    and only if the admin who ran it is not the DDL role.
   */
  lemma ServiceBootstrapVerifies(s: Session, plan: Plan, scan: Scan, c: Catalog, o: Outcome)
    requires Enumerates(scan) && DistinctNames(plan.schemas) && plan.schemas != []
    requires forall sp :: sp in plan.schemas ==> Insert in sp.tablePrivileges && sp.retiresAdminDefaults
    requires plan.readers == [] && Separate(s, plan, c)
    requires Script(s, plan, scan, c) == Some(o)
    ensures ServiceVerifies(s.superusers, plan, o.catalog) <==> s.admin != plan.ddl
  {
    forall i | 0 <= i < |plan.schemas|
      ensures SchemaVerifies(s.superusers, plan, plan.schemas[i], o.catalog) <==> s.admin != plan.ddl
    {
      assert plan.schemas[i] in plan.schemas;
      ServiceSchemaVerifies(s, plan, scan, c, o.catalog, i);
    }
    ServiceMeansEach(s.superusers, plan, o.catalog);
    assert SchemaVerifies(s.superusers, plan, plan.schemas[0], o.catalog) <==> s.admin != plan.ddl;
  }

  lemma ServiceMeansEach(superusers: set<Role>, plan: Plan, c: Catalog)
    ensures ServiceVerifies(superusers, plan, c)
      <==> forall i :: 0 <= i < |plan.schemas| ==> SchemaVerifies(superusers, plan, plan.schemas[i], c)
  {
    if forall i :: 0 <= i < |plan.schemas| ==> SchemaVerifies(superusers, plan, plan.schemas[i], c) {
      forall sp | sp in plan.schemas
        ensures SchemaVerifies(superusers, plan, sp, c)
      {
        var i :| 0 <= i < |plan.schemas| && plan.schemas[i] == sp;
      }
    }
    if ServiceVerifies(superusers, plan, c) {
      forall i | 0 <= i < |plan.schemas|
        ensures SchemaVerifies(superusers, plan, plan.schemas[i], c)
      {
        assert plan.schemas[i] in plan.schemas;
      }
    }
  }

  // ---- The append-only promise ----

  predicate PublicRewrites(acl: Acl) {
    Update in Held(acl, Public) || Delete in Held(acl, Public)
  }

  predicate AppRewrites(plan: Plan, acl: Acl) {
    Update in Held(acl, To(plan.app)) || Delete in Held(acl, To(plan.app))
  }

  /**
    What the script leaves the writer able to do to a fact table: whatever PUBLIC could do before, and, where
    the admin does not act for the owner, whatever had been granted to the writer itself.
   */
  predicate StaysRewritable(s: Session, edges: Edges, plan: Plan, sp: SchemaPlan, relations: map<Name, Relation>,
                            name: Name)
    requires name in relations
  {
    var moved := Reassigned(plan, sp, relations, name);
    PublicRewrites(moved.acl) || (!Acts(s, edges, moved.owner) && AppRewrites(plan, moved.acl))
  }

  lemma FactTableAfter(s: Session, edges: Edges, later: Edges, plan: Plan, sp: SchemaPlan,
                       relations: map<Name, Relation>, name: Name, acl: Acl)
    requires plan.app !in s.superusers && Standalone(later, plan.app)
    requires name in relations && FactTable(sp, name, relations[name])
    requires Update !in sp.tablePrivileges && Delete !in sp.tablePrivileges
    requires acl == RelationAfter(s, edges, plan, sp, relations, name).acl
    ensures Rewrites(s.superusers, later, plan.app, acl) <==> StaysRewritable(s, edges, plan, sp, relations, name)
  {
    FactEntries(s, edges, plan, sp, relations, name, acl);
    StandalonePrivileges(s.superusers, later, plan.app, acl, Update);
    StandalonePrivileges(s.superusers, later, plan.app, acl, Delete);
  }

  lemma FactEntries(s: Session, edges: Edges, plan: Plan, sp: SchemaPlan, relations: map<Name, Relation>, name: Name,
                    acl: Acl)
    requires name in relations && FactTable(sp, name, relations[name])
    requires acl == RelationAfter(s, edges, plan, sp, relations, name).acl
    ensures var moved := Reassigned(plan, sp, relations, name);
      && Held(acl, Public) == Held(moved.acl, Public)
      && (if Acts(s, edges, moved.owner) then Held(acl, To(plan.app)) <= sp.tablePrivileges + {Select}
        else acl == moved.acl)
  {
    var moved := Reassigned(plan, sp, relations, name);
    if Acts(s, edges, moved.owner) {
      RelationAclHolds(plan, sp, name, moved.kind, moved.acl);
      assert Held(acl, Public) == TableEntry(plan, sp, name, moved.kind, Public, Held(moved.acl, Public));
      assert Held(acl, To(plan.app))
        == TableEntry(plan, sp, name, moved.kind, To(plan.app), Held(moved.acl, To(plan.app)));
    }
  }

  /** No fact table of the schema stays open to rewriting. */
  ghost predicate Tamed(s: Session, edges: Edges, plan: Plan, sp: SchemaPlan, schema: Schema) {
    forall name :: name in schema.relations && FactTable(sp, name, schema.relations[name]) ==>
      !StaysRewritable(s, edges, plan, sp, schema.relations, name)
  }

  lemma WriterAppendsOnly(s: Session, edges: Edges, plan: Plan, sp: SchemaPlan, before: Schema, c: Catalog)
    requires sp.name in c.schemas
    requires c.schemas[sp.name].relations == RelationsAfter(s, edges, plan, sp, before.relations)
    requires plan.app !in s.superusers && Standalone(c.edges, plan.app)
    requires Update !in sp.tablePrivileges && Delete !in sp.tablePrivileges
    ensures AppendOnly(s.superusers, plan, sp, c) <==> Tamed(s, edges, plan, sp, before)
  {
    var after := c.schemas[sp.name].relations;
    forall name | name in before.relations
      ensures name in after && FactTable(sp, name, after[name]) == FactTable(sp, name, before.relations[name])
      ensures FactTable(sp, name, before.relations[name]) ==>
        (Rewrites(s.superusers, c.edges, plan.app, after[name].acl)
         <==> StaysRewritable(s, edges, plan, sp, before.relations, name))
    {
      assert after[name] == RelationAfter(s, edges, plan, sp, before.relations, name);
      if FactTable(sp, name, before.relations[name]) {
        FactTableAfter(s, edges, c.edges, plan, sp, before.relations, name, after[name].acl);
      }
    }
  }

  /** What the shared verification asks of one schema. */
  ghost predicate SharedSchemaVerifies(superusers: set<Role>, plan: Plan, sp: SchemaPlan, c: Catalog) {
    OwnedSchema(plan, sp, c) && OwnedRelations(plan, sp, c) && AppendOnly(superusers, plan, sp, c)
  }

  /** Every governed schema is tamed, read off the starting catalog and the memberships at its grants. */
  ghost predicate TamedThroughout(s: Session, plan: Plan, scan: Scan, c: Catalog)
    requires Enumerates(scan)
  {
    forall i :: 0 <= i < |plan.schemas| ==>
      TamedAt(s, ScriptEdges(s, plan, scan, c)[i], plan, plan.schemas[i], c)
  }

  ghost predicate TamedAt(s: Session, edges: Edges, plan: Plan, sp: SchemaPlan, c: Catalog) {
    Tamed(s, edges, plan, sp, SchemaOrNew(s.admin, c.schemas, sp.name))
  }

  lemma SharedSchemaIff(s: Session, plan: Plan, scan: Scan, c: Catalog, after: Catalog, i: nat)
    requires Enumerates(scan) && DistinctNames(plan.schemas) && Separate(s, plan, c) && s.admin != plan.ddl
    requires i < |plan.schemas|
    requires Update !in plan.schemas[i].tablePrivileges && Delete !in plan.schemas[i].tablePrivileges
    requires after == Bootstrapped(s, plan, scan, c).catalog
    ensures SharedSchemaVerifies(s.superusers, plan, plan.schemas[i], after)
      <==> TamedAt(s, ScriptEdges(s, plan, scan, c)[i], plan, plan.schemas[i], c)
  {
    var sp := plan.schemas[i];
    var before, edges := SchemaOrNew(s.admin, c.schemas, sp.name), ScriptEdges(s, plan, scan, c)[i];
    AppStaysStandalone(s, plan, scan, c);
    BootstrapReaches(s, plan, scan, c, i, before);
    RelationsOwned(s, edges, plan, sp, before, after);
    WriterAppendsOnly(s, edges, plan, sp, before, after);
  }

  /**
    From any catalog in which the shared script finishes, it ends verified exactly when no fact table stays
    rewritable: PUBLIC could not rewrite one before, nor the writer one that the admin cannot act for.
   */
  lemma SharedBootstrapVerifies(s: Session, plan: Plan, scan: Scan, c: Catalog, o: Outcome)
    requires Enumerates(scan) && DistinctNames(plan.schemas) && Separate(s, plan, c) && s.admin != plan.ddl
    requires forall sp :: sp in plan.schemas ==> Update !in sp.tablePrivileges && Delete !in sp.tablePrivileges
    requires Script(s, plan, scan, c) == Some(o)
    ensures SharedVerifies(s.superusers, plan, o.catalog) <==> TamedThroughout(s, plan, scan, c)
  {
    forall i | 0 <= i < |plan.schemas|
      ensures SharedSchemaVerifies(s.superusers, plan, plan.schemas[i], o.catalog)
        <==> TamedAt(s, ScriptEdges(s, plan, scan, c)[i], plan, plan.schemas[i], c)
    {
      assert plan.schemas[i] in plan.schemas;
      SharedSchemaIff(s, plan, scan, c, o.catalog, i);
    }
    SharedMeansEach(s.superusers, plan, o.catalog);
  }

  lemma SharedMeansEach(superusers: set<Role>, plan: Plan, c: Catalog)
    ensures SharedVerifies(superusers, plan, c)
      <==> forall i :: 0 <= i < |plan.schemas| ==> SharedSchemaVerifies(superusers, plan, plan.schemas[i], c)
  {
    if forall i :: 0 <= i < |plan.schemas| ==> SharedSchemaVerifies(superusers, plan, plan.schemas[i], c) {
      forall sp | sp in plan.schemas
        ensures SharedSchemaVerifies(superusers, plan, sp, c)
      {
        var i :| 0 <= i < |plan.schemas| && plan.schemas[i] == sp;
      }
    }
    if SharedVerifies(superusers, plan, c) {
      forall i | 0 <= i < |plan.schemas|
        ensures SharedSchemaVerifies(superusers, plan, plan.schemas[i], c)
      {
        assert plan.schemas[i] in plan.schemas;
      }
    }
  }
}
