/** Tool definitions as a backend lists them, and the name-keyed catalog built from such a list.
    Both the proxy (`BackendRouter.start`) and the chat client (`list_tools`) build this catalog
    with a dict comprehension keyed by tool name. */
module ToolCatalog {
  import opened Wrappers
  import opened Json
  import Seqs

  /** One entry of a tool listing: name, optional description, input schema. */
  datatype ToolDef = ToolDef(name: string, description: Option<string>, inputSchema: Json)

  /** The names of a listing, in listing order (duplicates kept). */
  function Names(tools: seq<ToolDef>): (names: seq<string>)
    ensures |names| == |tools|
    ensures forall i :: 0 <= i < |tools| ==> names[i] == tools[i].name
  {
    if tools == [] then [] else Names(tools[..|tools| - 1]) + [tools[|tools| - 1].name]
  }

  /** `{t.name: t for t in tools}`: every listed name is a key, and each key maps to the
      last listed tool of that name. */
  function ByName(tools: seq<ToolDef>): (catalog: map<string, ToolDef>)
    ensures catalog.Keys == set t | t in tools :: t.name
    ensures forall n :: n in catalog ==> catalog[n] in tools && catalog[n].name == n
  {
    if tools == [] then map[]
    else
      var last := tools[|tools| - 1];
      ByName(tools[..|tools| - 1])[last.name := last]
  }

  /** `t` is the tool named `n` that no later entry of `tools` overrides. */
  ghost predicate LastNamed(tools: seq<ToolDef>, n: string, t: ToolDef) {
    exists i :: LastNamedAt(tools, n, t, i)
  }

  /** `t` is entry `i`, is named `n`, and no later entry is named `n`. */
  ghost predicate LastNamedAt(tools: seq<ToolDef>, n: string, t: ToolDef, i: int) {
    0 <= i < |tools| && tools[i] == t && t.name == n &&
      forall j :: i < j < |tools| ==> tools[j].name != n
  }

  /** A later duplicate wins: the catalog keeps the last tool listed under each name. */
  lemma {:induction false} ByNameLastWins(tools: seq<ToolDef>, n: string)
    requires n in ByName(tools)
    ensures LastNamed(tools, n, ByName(tools)[n])
  {
    var k := |tools| - 1;
    var init := tools[..k];
    var m := ByName(tools);
    if tools[k].name == n {
      assert m[n] == tools[k];
      assert LastNamedAt(tools, n, m[n], k);
    } else {
      var mi := ByName(init);
      assert m == mi[tools[k].name := tools[k]];
      assert n in mi && m[n] == mi[n];
      ByNameLastWins(init, n);
      var i :| LastNamedAt(init, n, mi[n], i);
      forall j | i < j < |tools| ensures tools[j].name != n {
        if j < k { assert tools[j] == init[j]; }
      }
      assert LastNamedAt(tools, n, m[n], i);
    }
  }

  /** Key order of the dict built by `ByName`: names in order of first occurrence. */
  function KeyOrder(tools: seq<ToolDef>): seq<string> {
    Seqs.Dedup(Names(tools))
  }

  /** The key order lists every catalog key exactly once, and nothing else. */
  lemma KeyOrderSpec(tools: seq<ToolDef>)
    ensures Seqs.Distinct(KeyOrder(tools))
    ensures forall n :: n in KeyOrder(tools) <==> n in ByName(tools)
    ensures |KeyOrder(tools)| == |ByName(tools)|
  {
    var names := Names(tools);
    Seqs.DedupSpec(names);
    var order := KeyOrder(tools);
    forall n ensures n in order <==> n in ByName(tools) {
      if n in names {
        var i :| 0 <= i < |names| && names[i] == n;
        assert tools[i] in tools;
      }
      if n in ByName(tools) {
        var t :| t in tools && t.name == n;
        var i :| 0 <= i < |tools| && tools[i] == t;
        assert names[i] == n;
      }
    }
    Seqs.DistinctCardinality(order);
    assert (set x | x in order) == ByName(tools).Keys;
  }
}
