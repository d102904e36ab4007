/** The contracts that are registered, and what the main results say of each of them (db_contract.py). */
module DbRegistry {
  import opened Common
  import opened DbCatalog
  import opened DbContract
  import opened DbContractTheorems
  import opened DbFinishing
  import opened DbContractSettling

  datatype ServiceDbContract = ServiceDbContract(app: Role, ddl: Role, schemas: seq<SchemaContract>)
  {
    function Plan(): Plan {
      ServicePlan(ddl, app, schemas)
    }
  }

  function Plain(name: Name): SchemaContract {
    SchemaContract(name, {Select, Insert, Update, Delete}, false, [])
  }

  const VECTOR_STORES := "%\\_vector\\_store"

  const SERVICE_DB_CONTRACTS: seq<ServiceDbContract> := [
    ServiceDbContract("front_s_app", "taproot_front_ddl",
      [Plain("public"), SchemaContract("audit", {Select, Insert}, false, [])]),
    ServiceDbContract("prompt_s_app", "taproot_prompt_ddl", [Plain("prompt_s")]),
    ServiceDbContract("evals_app", "taproot_evals_ddl", [Plain("public")]),
    ServiceDbContract("retrieval_app", "taproot_retrieval_ddl",
      [SchemaContract("public", {Select, Insert, Update, Delete}, true, [VECTOR_STORES])]),
    ServiceDbContract("toolbox_app", "taproot_toolbox_ddl", [Plain("public")]),
    ServiceDbContract("worker_s_app", "taproot_worker_ddl", [Plain("public")]),
    ServiceDbContract("guardrail_s_app", "taproot_guardrail_ddl", [Plain("guardrail_s")])
  ]

  /** SYSTEM_RECORD_CONTRACT, the only shared one. */
  const SHARED_DB_CONTRACTS: seq<Plan> := [
    SharedPlan("taproot_system_record_ddl", "taproot_system_record_writer", "public", ["front_s_app"],
      ["retention_policies"])
  ]

  /** The app role is an ordinary role: no superuser, not the admin, and inheriting from nobody. */
  ghost predicate Ordinary(s: Session, app: Role, c: Catalog) {
    app != s.admin && app !in s.superusers && Standalone(c.edges, app)
  }

  lemma RegisteredShape(contract: ServiceDbContract)
    requires contract in SERVICE_DB_CONTRACTS
    ensures contract.ddl != contract.app
    ensures var plan := contract.Plan();
      && DistinctNames(plan.schemas) && plan.schemas != []
      && forall sp :: sp in plan.schemas ==> Insert in sp.tablePrivileges && sp.retiresAdminDefaults
  {}

  /** Every registered service: a finished bootstrap verifies unless the DDL role itself ran it. */
  lemma RegisteredServiceVerifies(contract: ServiceDbContract, s: Session, scan: Scan, c: Catalog, o: Outcome)
    requires contract in SERVICE_DB_CONTRACTS && Enumerates(scan) && Ordinary(s, contract.app, c)
    requires Script(s, contract.Plan(), scan, c) == Some(o)
    ensures ServiceVerifies(s.superusers, contract.Plan(), o.catalog) <==> s.admin != contract.ddl
  {
    RegisteredShape(contract);
    ServiceBootstrapVerifies(s, contract.Plan(), scan, c, o);
  }

  /** Run by a superuser, a registered bootstrap finishes unless it meets a stray procedure or a circular membership. */
  lemma RegisteredServiceFinishes(contract: ServiceDbContract, s: Session, scan: Scan, c: Catalog)
    requires contract in SERVICE_DB_CONTRACTS && Enumerates(scan) && s.admin in s.superusers
    ensures Script(s, contract.Plan(), scan, c) == Some(Bootstrapped(s, contract.Plan(), scan, c))
      <==> NoStrayProcedures(s, contract.Plan(), c) && !JoinIsCircular(contract.Plan(), c.edges)
  {
    RegisteredShape(contract);
    SuperuserFinishesIff(s, contract.Plan(), scan, c);
  }

  /** A superuser may run a registered bootstrap again: it gets to its end, and changes nothing. */
  lemma RegisteredServiceRepeats(contract: ServiceDbContract, s: Session, scan: Scan, c: Catalog, once: Outcome)
    requires contract in SERVICE_DB_CONTRACTS && Enumerates(scan) && s.admin in s.superusers && s.admin != contract.ddl
    requires Script(s, contract.Plan(), scan, c) == Some(once)
    ensures var again := Script(s, contract.Plan(), scan, once.catalog);
      again.Some? && again.value.catalog == once.catalog
  {
    RegisteredShape(contract);
    SuperuserSecondRun(s, contract.Plan(), scan, c, once);
  }

  lemma SharedShape(plan: Plan)
    requires plan in SHARED_DB_CONTRACTS
    ensures plan.ddl != plan.app && DistinctNames(plan.schemas)
    ensures forall sp :: sp in plan.schemas ==> Update !in sp.tablePrivileges && Delete !in sp.tablePrivileges
  {}

  /** The system of record: a finished bootstrap verifies exactly when no fact table stays rewritable. */
  lemma SystemRecordVerifies(plan: Plan, s: Session, scan: Scan, c: Catalog, o: Outcome)
    requires plan in SHARED_DB_CONTRACTS
    requires Enumerates(scan) && s.admin != plan.ddl && Ordinary(s, plan.app, c)
    requires Script(s, plan, scan, c) == Some(o)
    ensures SharedVerifies(s.superusers, plan, o.catalog) <==> TamedThroughout(s, plan, scan, c)
  {
    SharedShape(plan);
    SharedBootstrapVerifies(s, plan, scan, c, o);
  }

  // ---- What the declared pattern covers ----

  /** % stands for any prefix. */
  lemma {:induction false} PercentIsAnyPrefix(name: string, rest: string)
    ensures Like(name, ['%'] + rest) <==> exists k | 0 <= k <= |name| :: Like(name[k..], rest)
    decreases |name|
  {
    var pattern := ['%'] + rest;
    assert pattern[1..] == rest;
    assert name[0..] == name;
    if name == [] {
      assert forall k | 0 <= k <= |name| :: name[k..] == name;
    } else {
      PercentIsAnyPrefix(name[1..], rest);
      forall k | 0 <= k <= |name| - 1
        ensures name[1..][k..] == name[k + 1..]
      {}
      if k :| 0 <= k <= |name| && Like(name[k..], rest) && k > 0 {
        assert name[1..][k - 1..] == name[k..];
      }
    }
  }

  function Escaped(text: string): string {
    if text == [] then [] else (if text[0] == '_' then ['\\', '_'] else [text[0]]) + Escaped(text[1..])
  }

  /** A pattern whose underscores are escaped, and which has no other special character, is only itself. */
  lemma {:induction false} EscapedIsItself(name: string, text: string)
    requires '%' !in text && '\\' !in text
    ensures Like(name, Escaped(text)) <==> name == text
    decreases |text|
  {
    if text != [] {
      var pattern := Escaped(text);
      if text[0] == '_' {
        assert pattern[2..] == Escaped(text[1..]);
      } else {
        assert pattern[1..] == Escaped(text[1..]);
      }
      if name != [] {
        EscapedIsItself(name[1..], text[1..]);
        assert name == [name[0]] + name[1..] && text == [text[0]] + text[1..];
      }
    }
  }

  lemma SuffixPattern(name: string, text: string)
    requires '%' !in text && '\\' !in text
    ensures Like(name, ['%'] + Escaped(text)) <==> |name| >= |text| && name[|name| - |text|..] == text
  {
    PercentIsAnyPrefix(name, Escaped(text));
    forall k | 0 <= k <= |name|
      ensures Like(name[k..], Escaped(text)) <==> name[k..] == text
    {
      EscapedIsItself(name[k..], text);
    }
    if |name| >= |text| && name[|name| - |text|..] == text {
      assert Like(name[|name| - |text|..], Escaped(text));
    }
  }

  lemma EscapedStep(c: char, rest: string)
    ensures Escaped([c] + rest) == (if c == '_' then ['\\', '_'] else [c]) + Escaped(rest)
  {
    assert ([c] + rest)[1..] == rest;
  }

  lemma {:induction false} EscapedWord(word: string, rest: string)
    requires '_' !in word
    ensures Escaped(word + rest) == word + Escaped(rest)
    decreases |word|
  {
    if word == [] {
      assert word + rest == rest;
    } else {
      EscapedWord(word[1..], rest);
      EscapedStep(word[0], word[1..] + rest);
      assert word + rest == [word[0]] + (word[1..] + rest);
    }
  }

  lemma UnderscoreWord(word: string, rest: string)
    requires '_' !in word
    ensures Escaped(['_'] + (word + rest)) == ['\\', '_'] + (word + Escaped(rest))
  {
    EscapedWord(word, rest);
    EscapedStep('_', word + rest);
  }

  lemma TwoWordsEscaped(a: string, b: string)
    requires '_' !in a && '_' !in b
    ensures Escaped(['_'] + (a + (['_'] + (b + [])))) == ['\\', '_'] + (a + (['\\', '_'] + (b + [])))
  {
    UnderscoreWord(b, []);
    UnderscoreWord(a, ['_'] + (b + []));
  }

  lemma Flat(u: string, a: string, b: string)
    ensures u + (a + (u + (b + []))) == u + a + u + b
  {}

  /** A relation is runtime-owned under one such pattern when its name ends in those two words. */
  lemma OwnedBySuffix(sp: SchemaPlan, name: Name, pattern: string, a: string, b: string)
    requires sp.appOwnedLike == [pattern] && pattern == ['%', '\\', '_'] + a + ['\\', '_'] + b
    requires forall c :: c in a || c in b ==> c != '_' && c != '%' && c != '\\'
    ensures var text := ['_'] + a + ['_'] + b;
      RuntimeOwned(sp, name) <==> |name| >= |text| && name[|name| - |text|..] == text
  {
    var text := ['_'] + a + ['_'] + b;
    TwoWordsEscaped(a, b);
    Flat(['_'], a, b);
    Flat(['\\', '_'], a, b);
    assert pattern == ['%'] + Escaped(text);
    SuffixPattern(name, text);
    assert pattern in sp.appOwnedLike;
    assert RuntimeOwned(sp, name) <==> Like(name, pattern);
  }

  /** The runtime-owned relations of the retrieval service are those whose names end in _vector_store. */
  lemma RuntimeOwnedMeans(sp: SchemaPlan, name: Name)
    requires sp.appOwnedLike == [VECTOR_STORES]
    ensures RuntimeOwned(sp, name) <==> |name| >= 13 && name[|name| - 13..] == "_vector_store"
  {
    var pattern := sp.appOwnedLike[0];
    assert pattern == ['%', '\\', '_'] + "vector" + ['\\', '_'] + "store";
    var text := ['_'] + "vector" + ['_'] + "store";
    assert text == "_vector_store";
    OwnedBySuffix(sp, name, pattern, "vector", "store");
  }
}
