/** The identity graph: users may assume a functional database account, the account may access
    tables, and each access edge lists the human users allowed through it. `can_user_access`
    searches user --assume--> account --access--> table and takes the first access edge it meets. */
module IdGraph {
  import opened Wrappers
  import Seqs

  /** Node attributes (`kind`, `parent_db`). */
  type Attrs = map<string, string>

  /** One edge of the multigraph with its data: the `relation` attribute and, on access edges,
      the `allowed_users` set. */
  datatype Edge = Edge(src: string, dst: string, relation: Option<string>, allowedUsers: Option<set<string>>)

  /** A `networkx.MultiDiGraph` as built by `add_node`/`add_edge`: the node attributes and the
      edges in insertion order. */
  class MultiDiGraph {
    var nodes: map<string, Attrs>
    var edges: seq<Edge>

    constructor()
      ensures nodes == map[] && edges == []
    {
      nodes := map[];
      edges := [];
    }

    /** `add_node(n, **attrs)`: a new node gets `attrs`; an existing one has them merged in. */
    method AddNode(n: string, attrs: Attrs)
      modifies this
      ensures nodes == old(nodes)[n := if n in old(nodes) then old(nodes)[n] + attrs else attrs]
      ensures edges == old(edges)
    {
      nodes := nodes[n := if n in nodes then nodes[n] + attrs else attrs];
    }

    /** `add_edge(u, v, relation=..., allowed_users=...)`: a new parallel edge; missing endpoints
        become nodes without attributes. */
    method AddEdge(u: string, v: string, relation: Option<string>, allowedUsers: Option<set<string>>)
      modifies this
      ensures edges == old(edges) + [Edge(u, v, relation, allowedUsers)]
      ensures nodes.Keys == old(nodes).Keys + {u, v}
      ensures forall n :: n in old(nodes) ==> nodes[n] == old(nodes)[n]
      ensures forall n :: n in nodes && n !in old(nodes) ==> nodes[n] == map[]
      ensures u in old(nodes) && v in old(nodes) ==> nodes == old(nodes)
    {
      if u !in nodes {
        nodes := nodes[u := map[]];
      }
      if v !in nodes {
        nodes := nodes[v := map[]];
      }
      edges := edges + [Edge(u, v, relation, allowedUsers)];
    }
  }

  // ===================== out_edges and its order =====================

  /** The parallel edges u -> v, in insertion order. */
  function Between(edges: seq<Edge>, u: string, v: string): (r: seq<Edge>)
    ensures forall e :: e in r <==> e in edges && e.src == u && e.dst == v
  {
    if edges == [] then []
    else (if edges[0].src == u && edges[0].dst == v then [edges[0]] else []) + Between(edges[1..], u, v)
  }

  /** The targets of the edges out of `u`, in insertion order, repetitions kept. */
  function Targets(edges: seq<Edge>, u: string): (r: seq<string>)
    ensures forall x :: x in r <==> exists e :: e in edges && e.src == u && e.dst == x
  {
    if edges == [] then []
    else (if edges[0].src == u then [edges[0].dst] else []) + Targets(edges[1..], u)
  }

  /** The edges out of `u` towards the neighbours `nbrs`, neighbour by neighbour. */
  function Group(edges: seq<Edge>, u: string, nbrs: seq<string>): (r: seq<Edge>)
    ensures forall e :: e in r <==> e in edges && e.src == u && e.dst in nbrs
  {
    if nbrs == [] then [] else Between(edges, u, nbrs[0]) + Group(edges, u, nbrs[1..])
  }

  /** `graph.out_edges(u, data=True)`: neighbours in the order they were first linked from `u`,
      and for each neighbour its parallel edges in insertion order. */
  function OutEdges(edges: seq<Edge>, u: string): (r: seq<Edge>)
    ensures forall e :: e in r ==> e in edges && e.src == u
  {
    Group(edges, u, Seqs.Dedup(Targets(edges, u)))
  }

  /** `out_edges(u)` lists exactly the edges of the graph that leave `u`. */
  lemma OutEdgesMembers(edges: seq<Edge>, u: string)
    ensures forall e :: e in OutEdges(edges, u) <==> e in edges && e.src == u
  {
    Seqs.DedupSpec(Targets(edges, u));
  }

  // ===================== the access decision =====================

  /** The access edges into `table` among `es`, in order. */
  function AccessTo(es: seq<Edge>, table: string): (r: seq<Edge>)
    ensures forall e :: e in r <==> e in es && e.relation == Some("access") && e.dst == table
  {
    if es == [] then []
    else (if es[0].relation == Some("access") && es[0].dst == table then [es[0]] else []) + AccessTo(es[1..], table)
  }

  /** The access edges into `table` that the nested search meets, in the order it meets them,
      when its outer loop runs over `outs`. */
  function Candidates(edges: seq<Edge>, outs: seq<Edge>, table: string): (r: seq<Edge>)
    ensures forall e :: e in r ==> e in edges && e.relation == Some("access") && e.dst == table
  {
    if outs == [] then []
    else
      (if outs[0].relation == Some("assume") then AccessTo(OutEdges(edges, outs[0].dst), table) else [])
      + Candidates(edges, outs[1..], table)
  }

  /** `user in data.get("allowed_users", set())`. */
  predicate Allows(e: Edge, user: string)
    ensures Allows(e, user) <==> e.allowedUsers.Some? && user in e.allowedUsers.value
  {
    user in e.allowedUsers.GetOr({})
  }

  /** The decision `can_user_access` computes: the first access edge into `table` met by the
      search decides, and it grants exactly when it lists `user`. */
  function Access(edges: seq<Edge>, user: string, table: string): (r: bool)
    ensures r ==> exists e :: e in edges && e.relation == Some("access") && e.dst == table && Allows(e, user)
  {
    var c := Candidates(edges, OutEdges(edges, user), table);
    |c| > 0 && Allows(c[0], user)
  }

  /** user --assume--> account --access--> table is a path of the graph. */
  predicate Path(edges: seq<Edge>, user: string, table: string, e1: Edge, e2: Edge) {
    && e1 in edges && e1.src == user && e1.relation == Some("assume")
    && e2 in edges && e2.src == e1.dst && e2.dst == table && e2.relation == Some("access")
  }

  /** Every edge met by the search is the second step of a path from the user. */
  lemma {:induction false} CandidatesOnPaths(edges: seq<Edge>, user: string, outs: seq<Edge>, table: string, e2: Edge)
    requires forall o :: o in outs ==> o in edges && o.src == user
    requires e2 in Candidates(edges, outs, table)
    ensures exists e1 :: e1 in outs && Path(edges, user, table, e1, e2)
  {
    var head := if outs[0].relation == Some("assume") then AccessTo(OutEdges(edges, outs[0].dst), table) else [];
    if e2 in head {
      OutEdgesMembers(edges, outs[0].dst);
      assert Path(edges, user, table, outs[0], e2);
    } else {
      CandidatesOnPaths(edges, user, outs[1..], table, e2);
      var e1 :| e1 in outs[1..] && Path(edges, user, table, e1, e2);
      assert e1 in outs;
    }
  }

  /** Every path whose first step is among `outs` is met by the search. */
  lemma {:induction false} PathsAreCandidates(edges: seq<Edge>, user: string, outs: seq<Edge>, table: string, e1: Edge, e2: Edge)
    requires e1 in outs && Path(edges, user, table, e1, e2)
    ensures e2 in Candidates(edges, outs, table)
  {
    if outs[0] == e1 {
      OutEdgesMembers(edges, e1.dst);
    } else {
      PathsAreCandidates(edges, user, outs[1..], table, e1, e2);
    }
  }

  /** Granted access rests on a path user --assume--> account --access--> table whose access
      edge lists the user. */
  lemma AccessSound(edges: seq<Edge>, user: string, table: string)
    requires Access(edges, user, table)
    ensures exists e1, e2 :: Path(edges, user, table, e1, e2) && e2.allowedUsers.Some? && user in e2.allowedUsers.value
  {
    var outs := OutEdges(edges, user);
    OutEdgesMembers(edges, user);
    var e2 := Candidates(edges, outs, table)[0];
    CandidatesOnPaths(edges, user, outs, table, e2);
  }

  /** Without an outgoing assume edge the answer is false; other relations are skipped. */
  lemma {:induction false} NoAssumeNoAccess(edges: seq<Edge>, user: string, table: string)
    requires forall e :: e in edges && e.src == user ==> e.relation != Some("assume")
    ensures !Access(edges, user, table)
  {
    var outs := OutEdges(edges, user);
    OutEdgesMembers(edges, user);
    if Candidates(edges, outs, table) != [] {
      CandidatesOnPaths(edges, user, outs, table, Candidates(edges, outs, table)[0]);
    }
  }

  /** When some path reaches `table` and every access edge into `table` reachable from the user
      lists the user, access is granted. */
  lemma AccessWhenEveryPathAllows(edges: seq<Edge>, user: string, table: string, e1: Edge, e2: Edge)
    requires Path(edges, user, table, e1, e2)
    requires forall a, b :: Path(edges, user, table, a, b) ==> Allows(b, user)
    ensures Access(edges, user, table)
  {
    var outs := OutEdges(edges, user);
    OutEdgesMembers(edges, user);
    PathsAreCandidates(edges, user, outs, table, e1, e2);
    var first := Candidates(edges, outs, table)[0];
    CandidatesOnPaths(edges, user, outs, table, first);
  }

  /** Some edge of `cs` lists `user`. */
  function AnyAllows(cs: seq<Edge>, user: string): (r: bool)
    ensures r <==> exists e :: e in cs && Allows(e, user)
  {
    if cs == [] then false else Allows(cs[0], user) || AnyAllows(cs[1..], user)
  }

  /** The decision the documentation of `can_user_access` describes: some access edge met by
      the search lists the user, not only the first one. */
  function CorrectedAccess(edges: seq<Edge>, user: string, table: string): (r: bool)
    ensures r ==> exists e :: e in edges && e.relation == Some("access") && e.dst == table && Allows(e, user)
  {
    AnyAllows(Candidates(edges, OutEdges(edges, user), table), user)
  }

  /** The corrected decision grants exactly when some path user --assume--> account
      --access--> table has an access edge that lists the user. */
  lemma CorrectedAccessIff(edges: seq<Edge>, user: string, table: string)
    ensures CorrectedAccess(edges, user, table) <==>
      exists e1, e2 :: Path(edges, user, table, e1, e2) && Allows(e2, user)
  {
    var outs := OutEdges(edges, user);
    var cands := Candidates(edges, outs, table);
    OutEdgesMembers(edges, user);
    if CorrectedAccess(edges, user, table) {
      var e2 :| e2 in cands && Allows(e2, user);
      CandidatesOnPaths(edges, user, outs, table, e2);
    }
    if exists e1, e2 :: Path(edges, user, table, e1, e2) && Allows(e2, user) {
      var e1, e2 :| Path(edges, user, table, e1, e2) && Allows(e2, user);
      PathsAreCandidates(edges, user, outs, table, e1, e2);
    }
  }

  /** Whatever the code grants, the corrected decision grants too. */
  lemma AccessImpliesCorrectedAccess(edges: seq<Edge>, user: string, table: string)
    requires Access(edges, user, table)
    ensures CorrectedAccess(edges, user, table)
  {
    var cands := Candidates(edges, OutEdges(edges, user), table);
    assert cands[0] in cands;
  }

  /** Two parallel access edges from one account to `t`, the first not listing `u` and the
      second listing it: the code answers false although a path allows `u`. */
  lemma FirstAccessEdgeDecides()
    ensures var es := DenyThenAllow();
      !Access(es, "u", "t") && Path(es, "u", "t", es[0], es[2]) && Allows(es[2], "u")
      && CorrectedAccess(es, "u", "t")
  {
    var es := DenyThenAllow();
    DenyThenAllowOutEdges(es);
    var cs := Candidates(es, [es[0]], "t");
    assert cs == AccessTo([es[1], es[2]], "t") by {
      CandidatesSingle(es, es[0], "t");
    }
    AccessToPair(es[1], es[2], "t");
    assert Path(es, "u", "t", es[0], es[2]);
    CorrectedAccessIff(es, "u", "t");
  }

  function DenyThenAllow(): seq<Edge> {
    [ Edge("u", "acct", Some("assume"), None),
      Edge("acct", "t", Some("access"), Some({})),
      Edge("acct", "t", Some("access"), Some({"u"})) ]
  }

  lemma DenyThenAllowOutEdges(es: seq<Edge>)
    requires es == DenyThenAllow()
    ensures OutEdges(es, "u") == [es[0]]
    ensures OutEdges(es, "acct") == [es[1], es[2]]
  {
    DenyThenAllowUser(es);
    DenyThenAllowAccount(es);
  }

  lemma DenyThenAllowUser(es: seq<Edge>)
    requires es == DenyThenAllow()
    ensures OutEdges(es, "u") == [es[0]]
  {
    assert es[1..] == [es[1], es[2]] && es[2..] == [es[2]] && es[3..] == [];
    assert Targets(es, "u") == ["acct"];
    SingleNeighbour(es, "u", "acct");
    assert Between(es, "u", "acct") == [es[0]];
  }

  lemma DenyThenAllowAccount(es: seq<Edge>)
    requires es == DenyThenAllow()
    ensures OutEdges(es, "acct") == [es[1], es[2]]
  {
    assert es[1..] == [es[1], es[2]] && es[2..] == [es[2]] && es[3..] == [];
    assert Targets(es, "acct") == ["t", "t"];
    assert Seqs.Dedup(["t", "t"]) == ["t"] by {
      assert ["t", "t"][..1] == ["t"];
      assert Seqs.Dedup(["t"]) == ["t"] by { assert ["t"][..0] == []; }
    }
    assert ["t"][1..] == [];
    assert Group(es, "acct", ["t"]) == Between(es, "acct", "t") + Group(es, "acct", []);
    assert Between(es, "acct", "t") == [es[1], es[2]];
  }

  lemma CandidatesFrom(edges: seq<Edge>, outs: seq<Edge>, i: nat, table: string)
    requires i < |outs|
    ensures Candidates(edges, outs[i..], table) ==
      (if outs[i].relation == Some("assume") then AccessTo(OutEdges(edges, outs[i].dst), table) else [])
      + Candidates(edges, outs[i + 1..], table)
  {
    assert outs[i..][0] == outs[i] && outs[i..][1..] == outs[i + 1..];
  }

  lemma AccessToFrom(es: seq<Edge>, j: nat, table: string)
    requires j < |es|
    ensures AccessTo(es[j..], table) ==
      (if es[j].relation == Some("access") && es[j].dst == table then [es[j]] else []) + AccessTo(es[j + 1..], table)
  {
    assert es[j..][0] == es[j] && es[j..][1..] == es[j + 1..];
  }

  /** `can_user_access`: the nested loops with early return, reading the graph only. */
  method CanUserAccess(user: string, table: string, graph: MultiDiGraph) returns (r: bool)
    ensures r == Access(graph.edges, user, table)
  {
    var edges := graph.edges;
    var outs := OutEdges(edges, user);
    var i := 0;
    while i < |outs|
      invariant 0 <= i <= |outs|
      invariant Candidates(edges, outs, table) == Candidates(edges, outs[i..], table)
    {
      var e1 := outs[i];
      CandidatesFrom(edges, outs, i, table);
      if e1.relation != Some("assume") {
        i := i + 1;
        continue;
      }
      var inner := OutEdges(edges, e1.dst);
      var j := 0;
      while j < |inner|
        invariant 0 <= j <= |inner|
        invariant AccessTo(inner, table) == AccessTo(inner[j..], table)
      {
        var e2 := inner[j];
        AccessToFrom(inner, j, table);
        if e2.relation == Some("access") && e2.dst == table {
          return user in e2.allowedUsers.GetOr({});
        }
        j := j + 1;
      }
      assert inner[j..] == [];
      i := i + 1;
    }
    assert outs[i..] == [];
    return false;
  }

  // ===================== the example graph =====================

  function ExampleNodes(): map<string, Attrs> {
    map[
      "a_foo" := map["kind" := "user"],
      "a_bar" := map["kind" := "user"],
      "db_reader" := map["kind" := "db_account"],
      "db-A" := map["kind" := "database"],
      "table1" := map["kind" := "table", "parent_db" := "db-A"],
      "table2" := map["kind" := "table", "parent_db" := "db-A"]]
  }

  function ExampleEdges(): seq<Edge> {
    [ Edge("a_foo", "db_reader", Some("assume"), None),
      Edge("a_bar", "db_reader", Some("assume"), None),
      Edge("db_reader", "table1", Some("access"), Some({"a_foo"})),
      Edge("db_reader", "table2", Some("access"), Some({"a_bar"})) ]
  }

  /** The module-level graph `G`, built node by node and edge by edge. */
  method BuildExampleGraph() returns (g: MultiDiGraph)
    ensures fresh(g) && g.nodes == ExampleNodes() && g.edges == ExampleEdges()
  {
    g := new MultiDiGraph();
    AddExampleNodes(g);
    g.AddEdge("a_foo", "db_reader", Some("assume"), None);
    g.AddEdge("a_bar", "db_reader", Some("assume"), None);
    g.AddEdge("db_reader", "table1", Some("access"), Some({"a_foo"}));
    g.AddEdge("db_reader", "table2", Some("access"), Some({"a_bar"}));
  }

  /** The six `add_node` calls of the example. */
  method AddExampleNodes(g: MultiDiGraph)
    requires g.nodes == map[]
    modifies g
    ensures g.nodes == ExampleNodes() && g.edges == old(g.edges)
  {
    var user, account := map["kind" := "user"], map["kind" := "db_account"];
    var database, table := map["kind" := "database"], map["kind" := "table", "parent_db" := "db-A"];
    g.AddNode("a_foo", user);
    g.AddNode("a_bar", user);
    g.AddNode("db_reader", account);
    g.AddNode("db-A", database);
    g.AddNode("table1", table);
    g.AddNode("table2", table);
  }

  lemma ExampleSuffixes(es: seq<Edge>)
    requires es == ExampleEdges()
    ensures es[1..] == [es[1], es[2], es[3]] && es[2..] == [es[2], es[3]] && es[3..] == [es[3]] && es[4..] == []
  {
  }

  /** The out-edges of the example's users: their one assume edge each. */
  lemma ExampleUserOutEdges()
    ensures OutEdges(ExampleEdges(), "a_foo") == [ExampleEdges()[0]]
    ensures OutEdges(ExampleEdges(), "a_bar") == [ExampleEdges()[1]]
  {
    ExampleFooOutEdges(ExampleEdges());
    ExampleBarOutEdges(ExampleEdges());
  }

  lemma ExampleFooOutEdges(es: seq<Edge>)
    requires es == ExampleEdges()
    ensures OutEdges(es, "a_foo") == [es[0]]
  {
    ExampleSuffixes(es);
    assert Targets(es, "a_foo") == ["db_reader"];
    SingleNeighbour(es, "a_foo", "db_reader");
    assert Between(es, "a_foo", "db_reader") == [es[0]];
  }

  lemma ExampleBarOutEdges(es: seq<Edge>)
    requires es == ExampleEdges()
    ensures OutEdges(es, "a_bar") == [es[1]]
  {
    ExampleSuffixes(es);
    assert Targets(es, "a_bar") == ["db_reader"];
    SingleNeighbour(es, "a_bar", "db_reader");
    assert Between(es, "a_bar", "db_reader") == [es[1]];
  }

  /** A node linked to one neighbour only lists the parallel edges to it. */
  lemma SingleNeighbour(edges: seq<Edge>, u: string, v: string)
    requires Targets(edges, u) == [v]
    ensures OutEdges(edges, u) == Between(edges, u, v)
  {
    assert Seqs.Dedup([v]) == [v] by { assert [v][..0] == []; }
    assert [v][1..] == [];
    assert Group(edges, u, [v]) == Between(edges, u, v) + Group(edges, u, []);
  }

  lemma ExampleAccountTargets()
    ensures Targets(ExampleEdges(), "db_reader") == ["table1", "table2"]
  {
    ExampleSuffixes(ExampleEdges());
  }

  lemma ExampleBetweenTable1()
    ensures Between(ExampleEdges(), "db_reader", "table1") == [ExampleEdges()[2]]
  {
    ExampleSuffixes(ExampleEdges());
  }

  lemma ExampleBetweenTable2()
    ensures Between(ExampleEdges(), "db_reader", "table2") == [ExampleEdges()[3]]
  {
    ExampleSuffixes(ExampleEdges());
  }

  lemma ExampleAccountGroup()
    ensures Group(ExampleEdges(), "db_reader", ["table1", "table2"]) == [ExampleEdges()[2], ExampleEdges()[3]]
  {
    var es := ExampleEdges();
    ExampleBetweenTable1();
    ExampleBetweenTable2();
    var nbrs := ["table1", "table2"];
    assert nbrs[1..] == ["table2"];
    assert Group(es, "db_reader", nbrs[1..]) == [es[3]];
  }

  /** The out-edges of the functional account: table1 first, then table2. */
  lemma ExampleAccountOutEdges()
    ensures OutEdges(ExampleEdges(), "db_reader") == [ExampleEdges()[2], ExampleEdges()[3]]
  {
    ExampleAccountTargets();
    assert Seqs.Dedup(["table1", "table2"]) == ["table1", "table2"] by {
      assert ["table1", "table2"][..1] == ["table1"];
    }
    ExampleAccountGroup();
  }

  lemma AccessToPair(a: Edge, b: Edge, table: string)
    ensures AccessTo([a, b], table) ==
      (if a.relation == Some("access") && a.dst == table then [a] else [])
      + (if b.relation == Some("access") && b.dst == table then [b] else [])
  {
    assert [a, b][1..] == [b] && [b][1..] == [];
    assert AccessTo([b], table) == (if b.relation == Some("access") && b.dst == table then [b] else []);
  }

  lemma CandidatesSingle(edges: seq<Edge>, o: Edge, table: string)
    ensures Candidates(edges, [o], table) ==
      if o.relation == Some("assume") then AccessTo(OutEdges(edges, o.dst), table) else []
  {
    assert [o][1..] == [];
  }

  /** The access edges into each table met from the account. */
  lemma ExampleAccessFromAccount()
    ensures AccessTo(OutEdges(ExampleEdges(), "db_reader"), "table1") == [ExampleEdges()[2]]
    ensures AccessTo(OutEdges(ExampleEdges(), "db_reader"), "table2") == [ExampleEdges()[3]]
  {
    var es := ExampleEdges();
    ExampleAccountOutEdges();
    AccessToPair(es[2], es[3], "table1");
    AccessToPair(es[2], es[3], "table2");
  }

  lemma ExampleCandidates(es: seq<Edge>)
    requires es == ExampleEdges()
    ensures Candidates(es, [es[0]], "table1") == [es[2]]
    ensures Candidates(es, [es[0]], "table2") == [es[3]]
    ensures Candidates(es, [es[1]], "table2") == [es[3]]
  {
    ExampleAccessFromAccount();
    CandidatesSingle(es, es[0], "table1");
    CandidatesSingle(es, es[0], "table2");
    CandidatesSingle(es, es[1], "table2");
  }

  lemma ExampleFooTable1()
    ensures Access(ExampleEdges(), "a_foo", "table1")
  {
    var es := ExampleEdges();
    ExampleUserOutEdges();
    ExampleCandidates(es);
    assert Candidates(es, OutEdges(es, "a_foo"), "table1") == [es[2]];
  }

  lemma ExampleFooTable2()
    ensures !Access(ExampleEdges(), "a_foo", "table2")
  {
    var es := ExampleEdges();
    ExampleUserOutEdges();
    ExampleCandidates(es);
    assert Candidates(es, OutEdges(es, "a_foo"), "table2") == [es[3]];
    ExampleTable2EdgeExcludesFoo(es[3]);
  }

  lemma ExampleTable2EdgeExcludesFoo(e: Edge)
    requires e == ExampleEdges()[3]
    ensures !Allows(e, "a_foo")
  {
    assert "a_foo"[2] != "a_bar"[2];
  }

  lemma ExampleBarTable2()
    ensures Access(ExampleEdges(), "a_bar", "table2")
  {
    var es := ExampleEdges();
    ExampleUserOutEdges();
    ExampleCandidates(es);
    assert Candidates(es, OutEdges(es, "a_bar"), "table2") == [es[3]];
  }

  /** On the example graph a_foo reaches table1 but not table2, and a_bar reaches table2. */
  lemma ExampleAnswers()
    ensures Access(ExampleEdges(), "a_foo", "table1")
    ensures !Access(ExampleEdges(), "a_foo", "table2")
    ensures Access(ExampleEdges(), "a_bar", "table2")
  {
    ExampleFooTable1();
    ExampleFooTable2();
    ExampleBarTable2();
  }

  /** The three answers the module prints for its example graph. */
  method ExampleChecks() returns (fooTable1: bool, fooTable2: bool, barTable2: bool)
    ensures fooTable1 && !fooTable2 && barTable2
  {
    var g := BuildExampleGraph();
    fooTable1 := CanUserAccess("a_foo", "table1", g);
    fooTable2 := CanUserAccess("a_foo", "table2", g);
    barTable2 := CanUserAccess("a_bar", "table2", g);
    ExampleAnswers();
  }
}
