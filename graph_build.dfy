/** `build_graph` as the program runs it: a directed graph object filled in
    loop by loop, node by node and edge by edge, proved to end in the graph
    `TriggerGraph.Build` describes, and to raise exactly when that
    description has no graph. */
module GraphBuild {
  import opened Wrappers
  import opened PyValue
  import opened Normalize
  import opened Format
  import opened TriggerGraph

  /** The `nx.DiGraph` the builder fills in: node attributes by id, and at
      most one edge per ordered pair of ids. */
  class DiGraph {
    var nodes: map<string, Node>
    var edges: map<(string, string), Edge>

    /** The graph the object currently holds. */
    function Value(): Graph
      reads this
    {
      Graph(nodes, edges)
    }

    /** `nx.DiGraph()`. */
    constructor ()
      ensures Value() == EmptyGraph
    {
      nodes := map[];
      edges := map[];
    }

    /** `G.add_node(id, ...)` with every attribute given: the node's
        attributes become `n`. */
    method SetNode(id: string, n: Node)
      modifies this
      ensures nodes == old(nodes)[id := n] && edges == old(edges)
    {
      nodes := nodes[id := n];
    }

    /** `if id not in G: G.add_node(id, ...)`. */
    method AddIfAbsent(id: string, n: Node)
      modifies this
      ensures Value() == Touch(old(Value()), id, n)
    {
      if id !in nodes {
        nodes := nodes[id := n];
      }
    }

    /** `G.add_edge(u, v, label=..., style=...)`: a new edge, or new
        attributes for the edge already joining `u` to `v`. */
    method AddEdge(u: string, v: string, e: Edge)
      modifies this
      ensures nodes == old(nodes) && edges == old(edges)[(u, v) := e]
    {
      edges := edges[(u, v) := e];
    }

    /** One drawing step: the node added when absent, then the edge. */
    method Apply(dr: Draw)
      modifies this
      ensures Value() == ApplyDraw(old(Value()), dr)
    {
      AddIfAbsent(dr.at, dr.node);
      AddEdge(dr.edge.0, dr.edge.1, dr.attrs);
    }

    /** Drawing steps in order. */
    method ApplyAll(ds: seq<Draw>)
      modifies this
      ensures Value() == ApplyDraws(old(Value()), ds)
    {
      ghost var g0 := Value();
      for i := 0 to |ds|
        invariant Value() == ApplyDraws(g0, ds[..i])
      {
        assert ds[..i + 1][..i] == ds[..i];
        Apply(ds[i]);
      }
      assert ds[..|ds|] == ds;
    }

    /** `G.nodes[tid]["_sum_actions"].append(s)` (or `_sum_events`); the
        caller has checked that the node has those lists. */
    method AppendSummary(tid: string, k: Kind, s: string)
      requires tid in nodes && nodes[tid].sums.Some?
      modifies this
      ensures Value() == AddSummary(old(Value()), tid, k, s)
    {
      var n := nodes[tid];
      var s0 := n.sums.value;
      var s1 := if k == Actions then s0.(actions := s0.actions + [s]) else s0.(events := s0.events + [s]);
      nodes := nodes[tid := n.(sums := Some(s1))];
    }

    /** One entry's effect on the trigger `tid`: its summary appended, then
        its edges drawn. */
    method ApplyEffect(tid: string, k: Kind, eff: Effect)
      requires tid in nodes && nodes[tid].sums.Some?
      modifies this
      ensures Value() == ApplyDraws(AddSummary(old(Value()), tid, k, eff.summary), eff.draws)
    {
      AppendSummary(tid, k, eff.summary);
      ApplyAll(eff.draws);
    }

    /** The last loop of `build_graph`: each trigger node's title completed
        with its summaries and its summary lists deleted; other nodes are
        skipped. */
    method FinalizeTitles()
      modifies this
      ensures Value() == Finalize(old(Value()))
    {
      ghost var n0 := nodes;
      var todo := nodes.Keys;
      while todo != {}
        invariant todo <= n0.Keys && nodes.Keys == n0.Keys && edges == old(edges)
        invariant forall id :: id in todo ==> nodes[id] == n0[id]
        invariant forall id :: id in n0 && id !in todo ==> nodes[id] == FinalNode(n0[id])
        decreases |todo|
      {
        var id :| id in todo;
        nodes := nodes[id := FinalNode(nodes[id])];
        todo := todo - {id};
      }
      assert nodes == Finalize(old(Value())).nodes;
    }

    /** The pass `main` makes over the built graph: every edge's label put
        through `canon_label` again. */
    method RecanonLabels()
      requires forall e :: e in edges ==> !Truthy(edges[e].caption) || Hashable(edges[e].caption)
      modifies this
      ensures nodes == old(nodes) && edges == Recanon(old(edges))
    {
      ghost var e0 := edges;
      var todo := edges.Keys;
      while todo != {}
        invariant todo <= e0.Keys && edges.Keys == e0.Keys && nodes == old(nodes)
        invariant forall e :: e in todo ==> edges[e] == e0[e]
        invariant forall e :: e in e0 && e !in todo ==> edges[e] == Edge(CanonLabel(e0[e].caption), e0[e].style)
        decreases |todo|
      {
        var e :| e in todo;
        edges := edges[e := Edge(CanonLabel(edges[e].caption), edges[e].style)];
        todo := todo - {e};
      }
      assert edges == Recanon(e0);
    }
  }

  // ------------------------------------------------------------ first two loops

  /** The nodes of a longer prefix of the trigger table. */
  lemma {:induction false} TriggerNodesSnoc(g: Graph, ts: seq<(string, Json)>, i: nat)
    requires i < |ts| && AllDicts(ts[..i]) && ts[i].1.JObj?
    ensures AllDicts(ts[..i + 1])
    ensures SetNodes(g, TriggerNodes(ts[..i + 1])) ==
      SetNodes(g, TriggerNodes(ts[..i])).(nodes := SetNodes(g, TriggerNodes(ts[..i])).nodes[ts[i].0 := TriggerNode(ts[i].0, ts[i].1)])
  {
    var ns, pre := TriggerNodes(ts[..i + 1]), TriggerNodes(ts[..i]);
    assert forall j :: 0 <= j < i ==> ts[..i + 1][j] == ts[..i][j];
    assert ns[..i] == pre;
    assert ns[i] == (ts[i].0, TriggerNode(ts[i].0, ts[i].1));
    var h := SetNodes(g, pre);
    assert SetNodes(g, ns) == h.(nodes := h.nodes[ns[i].0 := ns[i].1]);
  }

  /** The first loop: a trigger node for each entry of the trigger table;
      an entry that is not a dict makes `t.get` raise. */
  method AddTriggerNodes(g: DiGraph, ts: seq<(string, Json)>) returns (ok: bool)
    requires g.Value() == EmptyGraph
    modifies g
    ensures ok <==> AllDicts(ts)
    ensures ok ==> g.Value() == AddTriggers(ts).value
  {
    for i := 0 to |ts|
      invariant AllDicts(ts[..i])
      invariant g.Value() == SetNodes(EmptyGraph, TriggerNodes(ts[..i]))
    {
      if !ts[i].1.JObj? {
        return false;
      }
      TriggerNodesSnoc(EmptyGraph, ts, i);
      g.SetNode(ts[i].0, TriggerNode(ts[i].0, ts[i].1));
    }
    assert ts[..|ts|] == ts;
    return true;
  }

  /** The second loop: the dotted `linked` edge of every trigger that names
      a linked trigger. */
  method DrawLinks(g: DiGraph, ts: seq<(string, Json)>)
    requires AllDicts(ts)
    modifies g
    ensures g.Value() == AddLinks(old(g.Value()), Ids(ts), LinkIds(ts))
  {
    ghost var g0 := g.Value();
    ghost var ids := Ids(ts);
    ghost var links := LinkIds(ts);
    for i := 0 to |ts|
      invariant g.Value() == AddLinks(g0, ids[..i], links[..i])
    {
      var l := LinkedId(ts[i].1);
      assert ids[..i + 1][..i] == ids[..i] && links[..i + 1][..i] == links[..i];
      assert links[i] == l && ids[i] == ts[i].0;
      if l.Some? {
        g.Apply(LinkDraw(l.value, ts[i].0));
      }
    }
    assert ids[..|ts|] == ids && links[..|ts|] == links;
  }

  // ------------------------------------------------------------ one entry

  /** A longer prefix of a fold that succeeds succeeds. */
  lemma {:induction false} RulesDrawsPrefix(tid: string, params: seq<Json>, locals: map<string, Json>,
                                            rules: seq<Json>, j: nat)
    requires j <= |rules| && RulesDraws(tid, params, locals, rules).Some?
    ensures RulesDraws(tid, params, locals, rules[..j]).Some?
    decreases |rules|
  {
    if j < |rules| {
      var n := |rules| - 1;
      assert rules[..n][..j] == rules[..j];
      RulesDrawsPrefix(tid, params, locals, rules[..n], j);
    } else {
      assert rules[..j] == rules;
    }
  }

  lemma {:induction false} RefsDrawsPrefix(tid: string, code: int, params: seq<Json>, locals: map<string, Json>,
                                           refs: seq<Json>, j: nat)
    requires j <= |refs| && RefsDraws(tid, code, params, locals, refs).Some?
    ensures RefsDraws(tid, code, params, locals, refs[..j]).Some?
    decreases |refs|
  {
    if j < |refs| {
      var n := |refs| - 1;
      assert refs[..n][..j] == refs[..j];
      RefsDrawsPrefix(tid, code, params, locals, refs[..n], j);
    } else {
      assert refs[..j] == refs;
    }
  }

  /** The loop over an action's `produces_edges` rules; a rule that raises
      ends it. */
  method DrawRules(tid: string, params: seq<Json>, locals: map<string, Json>, rules: seq<Json>)
    returns (ds: seq<Draw>, ok: bool)
    ensures ok <==> RulesDraws(tid, params, locals, rules).Some?
    ensures ok ==> ds == RulesDraws(tid, params, locals, rules).value
  {
    ds := [];
    for j := 0 to |rules|
      invariant RulesDraws(tid, params, locals, rules[..j]) == Some(ds)
    {
      assert rules[..j + 1][..j] == rules[..j];
      var d1 := RuleDraws(tid, params, locals, rules[j]);
      if d1.None? {
        if RulesDraws(tid, params, locals, rules).Some? {
          RulesDrawsPrefix(tid, params, locals, rules, j + 1);
        }
        return ds, false;
      }
      ds := ds + d1.value;
    }
    assert rules[..|rules|] == rules;
    return ds, true;
  }

  /** The loop over an event's `references`; a reference that raises ends
      it. */
  method DrawRefs(tid: string, code: int, params: seq<Json>, locals: map<string, Json>, refs: seq<Json>)
    returns (ds: seq<Draw>, ok: bool)
    ensures ok <==> RefsDraws(tid, code, params, locals, refs).Some?
    ensures ok ==> ds == RefsDraws(tid, code, params, locals, refs).value
  {
    ds := [];
    for j := 0 to |refs|
      invariant RefsDraws(tid, code, params, locals, refs[..j]) == Some(ds)
    {
      assert refs[..j + 1][..j] == refs[..j];
      var d1 := DependsDraws(tid, code, params, locals, refs[j]);
      if d1.None? {
        if RefsDraws(tid, code, params, locals, refs).Some? {
          RefsDrawsPrefix(tid, code, params, locals, refs, j + 1);
        }
        return ds, false;
      }
      ds := ds + d1.value;
    }
    assert refs[..|refs|] == refs;
    return ds, true;
  }

  /** The loop over an entry's rules or references, once its list is known
      to be iterable. */
  method EntryDrawsOf(k: Kind, tid: string, e: Entry, d: Dicts) returns (ds: seq<Draw>, ok: bool)
    ensures ok <==> EntryDraws(k, tid, e, d).Some?
    ensures ok ==> ds == EntryDraws(k, tid, e, d).value
  {
    var meta := MetaOf(DictOf(k, d), e.code);
    var key := if k == Actions then "produces_edges" else "references";
    if !meta.JObj? || !Iterable(Or(Get(meta, key), JList([]))) {
      return [], false;
    }
    if k == Actions {
      ds, ok := DrawRules(tid, e.params, d.locals, ListOf(meta, key));
    } else {
      ds, ok := DrawRefs(tid, e.code, e.params, d.locals, ListOf(meta, key));
    }
  }

  /** One normalised entry: its summary line, then what its rules or
      references draw; `ok` is false where the program raises. */
  method EntryEffectOf(k: Kind, tid: string, e: Entry, d: Dicts) returns (eff: Effect, ok: bool)
    ensures ok <==> EntryEffect(k, tid, e, d).Some?
    ensures ok ==> eff == EntryEffect(k, tid, e, d).value
  {
    var kind := SummaryKind(k, d.legacy);
    eff := Effect("", []);
    if !MetaReady(kind, e.params, MetaOf(DictOf(k, d), e.code)) {
      return eff, false;
    }
    var text := FormatEntry(kind, e.code, e.params, DictOf(k, d));
    var ds;
    ds, ok := EntryDrawsOf(k, tid, e, d);
    eff := Effect(text, ds);
  }

  // ------------------------------------------------------------ one trigger

  lemma {:induction false} ApplyEffectsPrefix(g: Graph, k: Kind, tid: string, effs: seq<Effect>, j: nat)
    requires tid in g.nodes && j <= |effs| && ApplyEffects(g, k, tid, effs).Some?
    ensures ApplyEffects(g, k, tid, effs[..j]).Some?
    decreases |effs|
  {
    if j < |effs| {
      var n := |effs| - 1;
      assert effs[..n][..j] == effs[..j];
      ApplyEffectsPrefix(g, k, tid, effs[..n], j);
    } else {
      assert effs[..j] == effs;
    }
  }

  /** One more effect applied. */
  lemma {:induction false} ApplyEffectsSnoc(g0: Graph, k: Kind, tid: string, effs: seq<Effect>, eff: Effect, g: Graph)
    requires tid in g0.nodes && ApplyEffects(g0, k, tid, effs) == Some(g)
    ensures tid in g.nodes
    ensures g.nodes[tid].sums.None? ==> ApplyEffects(g0, k, tid, effs + [eff]).None?
    ensures g.nodes[tid].sums.Some? ==>
      ApplyEffects(g0, k, tid, effs + [eff]) == Some(ApplyDraws(AddSummary(g, tid, k, eff.summary), eff.draws))
  {
    assert (effs + [eff])[..|effs|] == effs;
  }

  /** A sequence that agrees with `xs` and then holds `x` starts with
      `xs + [x]`. */
  lemma {:induction false} PrefixIsSnoc<T>(full: seq<T>, xs: seq<T>, x: T)
    requires |xs| < |full| && full[|xs|] == x
    requires forall i :: 0 <= i < |xs| ==> full[i] == xs[i]
    ensures full[..|xs| + 1] == xs + [x]
  {
    assert forall i :: 0 <= i < |xs| + 1 ==> full[..|xs| + 1][i] == (xs + [x])[i];
  }

  /** An entry that raises at position `j` makes the trigger's entries
      raise. */
  lemma {:induction false} EntryStepFails(g0: Graph, k: Kind, tid: string, es: seq<Entry>, d: Dicts, j: nat,
                                          effs: seq<Effect>, eff: Effect)
    requires tid in g0.nodes && j < |es| && |effs| == j
    requires forall i :: 0 <= i < j ==> EntryEffect(k, tid, es[i], d) == Some(effs[i])
    requires EntryEffect(k, tid, es[j], d).None? ||
      (EntryEffect(k, tid, es[j], d) == Some(eff) && ApplyEffects(g0, k, tid, effs + [eff]).None?)
    ensures EntryEffects(k, tid, es, d).None? || ApplyEffects(g0, k, tid, EntryEffects(k, tid, es, d).value).None?
  {
    if EntryEffects(k, tid, es, d).Some? {
      var full := EntryEffects(k, tid, es, d).value;
      assert EntryEffect(k, tid, es[j], d) == Some(full[j]);
      assert full[j] == eff;
      if ApplyEffects(g0, k, tid, full).Some? {
        ApplyEffectsPrefix(g0, k, tid, full, j + 1);
        forall i | 0 <= i < j ensures full[i] == effs[i] {
          assert EntryEffect(k, tid, es[i], d) == Some(full[i]);
        }
        PrefixIsSnoc(full, effs, eff);
      }
    }
  }

  /** One pass of the loop over a trigger's entries: the entry's effect,
      then, when the node has summary lists, that effect applied. */
  method ApplyEntry(g: DiGraph, ghost g0: Graph, k: Kind, tid: string, e: Entry, d: Dicts, ghost effs: seq<Effect>)
    returns (eff: Effect, ok: bool)
    requires tid in g0.nodes && ApplyEffects(g0, k, tid, effs) == Some(g.Value())
    modifies g
    ensures ok ==> EntryEffect(k, tid, e, d) == Some(eff) && ApplyEffects(g0, k, tid, effs + [eff]) == Some(g.Value())
    ensures !ok ==> (EntryEffect(k, tid, e, d).None? ||
      (EntryEffect(k, tid, e, d) == Some(eff) && ApplyEffects(g0, k, tid, effs + [eff]).None?))
  {
    var okE;
    eff, okE := EntryEffectOf(k, tid, e, d);
    ApplyEffectsSnoc(g0, k, tid, effs, eff, g.Value());
    if !okE || g.nodes[tid].sums.None? {
      return eff, false;
    }
    g.ApplyEffect(tid, k, eff);
    return eff, true;
  }

  /** The loop over a trigger's normalised entries: each entry's summary
      appended to the trigger's node, then its edges drawn. */
  method ApplyEntries(g: DiGraph, k: Kind, tid: string, es: seq<Entry>, d: Dicts) returns (ok: bool)
    requires tid in g.nodes
    modifies g
    ensures ok ==> (EntryEffects(k, tid, es, d).Some? &&
      ApplyEffects(old(g.Value()), k, tid, EntryEffects(k, tid, es, d).value) == Some(g.Value()))
    ensures !ok ==> (EntryEffects(k, tid, es, d).None? ||
      ApplyEffects(old(g.Value()), k, tid, EntryEffects(k, tid, es, d).value).None?)
  {
    ghost var g0 := g.Value();
    ghost var effs: seq<Effect> := [];
    for j := 0 to |es|
      invariant |effs| == j
      invariant forall i :: 0 <= i < j ==> EntryEffect(k, tid, es[i], d) == Some(effs[i])
      invariant ApplyEffects(g0, k, tid, effs) == Some(g.Value())
    {
      var eff, okE := ApplyEntry(g, g0, k, tid, es[j], d, effs);
      if !okE {
        EntryStepFails(g0, k, tid, es, d, j, effs, eff);
        return false;
      }
      ghost var effs1 := effs + [eff];
      forall i | 0 <= i <= j ensures EntryEffect(k, tid, es[i], d) == Some(effs1[i]) {
        if i < j {
          assert effs1[i] == effs[i];
        }
      }
      effs := effs1;
    }
    assert EntryEffects(k, tid, es, d).value == effs by {
      forall i | 0 <= i < |es| ensures EntryEffects(k, tid, es, d).value[i] == effs[i] {
        assert EntryEffect(k, tid, es[i], d) == Some(effs[i]);
      }
    }
    return true;
  }

  /** One trigger of the third or fourth loop of `build_graph`: its node
      added when absent, then its normalised entries. */
  method AddTriggerRows(g: DiGraph, k: Kind, tid: string, c: Json, d: Dicts) returns (ok: bool)
    modifies g
    ensures ok ==> (TriggerEffects(k, tid, c, d).Some? &&
      ApplyTrigger(k, old(g.Value()), tid, TriggerEffects(k, tid, c, d).value) == Some(g.Value()))
    ensures !ok ==> (TriggerEffects(k, tid, c, d).None? ||
      ApplyTrigger(k, old(g.Value()), tid, TriggerEffects(k, tid, c, d).value).None?)
  {
    g.AddIfAbsent(tid, PlainTrigger(tid));
    if !ContainerReadable(k, c) {
      return false;
    }
    var es := IterNormalized(k, c);
    ok := ApplyEntries(g, k, tid, es, d);
  }

  // ------------------------------------------------------------ one table

  lemma {:induction false} ApplyTablePrefix(k: Kind, g: Graph, tes: seq<(string, seq<Effect>)>, j: nat)
    requires j <= |tes| && ApplyTable(k, g, tes).Some?
    ensures ApplyTable(k, g, tes[..j]).Some?
    decreases |tes|
  {
    if j < |tes| {
      var n := |tes| - 1;
      assert ApplyTable(k, g, tes[..n]).Some?;
      assert tes[..n][..j] == tes[..j];
      ApplyTablePrefix(k, g, tes[..n], j);
    } else {
      assert tes[..j] == tes;
    }
  }

  /** The effects of a prefix of the table are a prefix of its effects. */
  lemma {:induction false} TableEffectsPrefix(k: Kind, table: seq<(string, Json)>, d: Dicts, i: nat)
    requires i <= |table| && TableEffects(k, table, d).Some?
    ensures TableEffects(k, table[..i], d) == Some(TableEffects(k, table, d).value[..i])
  {
    var all := TableEffects(k, table, d).value;
    assert forall j :: 0 <= j < i ==> table[..i][j] == table[j];
    assert TableEffects(k, table[..i], d).Some?;
    assert TableEffects(k, table[..i], d).value == all[..i];
  }

  /** One more trigger's effects. */
  lemma {:induction false} TableEffectsSnoc(k: Kind, table: seq<(string, Json)>, d: Dicts, i: nat,
                                            tes: seq<(string, seq<Effect>)>)
    requires i < |table| && TableEffects(k, table[..i], d) == Some(tes)
    requires TriggerEffects(k, table[i].0, table[i].1, d).Some?
    ensures TableEffects(k, table[..i + 1], d) ==
      Some(tes + [(table[i].0, TriggerEffects(k, table[i].0, table[i].1, d).value)])
  {
    var t1 := table[..i + 1];
    var row := (table[i].0, TriggerEffects(k, table[i].0, table[i].1, d).value);
    forall j | 0 <= j <= i ensures TriggerEffects(k, t1[j].0, t1[j].1, d).Some? {
      if j < i {
        assert t1[j] == table[..i][j];
      }
    }
    var v := TableEffects(k, t1, d).value;
    forall j | 0 <= j < i ensures v[j] == tes[j] {
      assert t1[j] == table[..i][j];
    }
    assert v[i] == row;
    PrefixIsSnoc(v, tes, row);
    assert v[..i + 1] == v;
  }

  /** One more trigger applied. */
  lemma {:induction false} ApplyTableSnoc(k: Kind, g0: Graph, tes: seq<(string, seq<Effect>)>,
                                          row: (string, seq<Effect>), g: Graph)
    requires ApplyTable(k, g0, tes) == Some(g)
    ensures ApplyTable(k, g0, tes + [row]) == ApplyTrigger(k, g, row.0, row.1)
  {
    assert (tes + [row])[..|tes|] == tes;
  }

  /** When trigger `i` of the table fails, so does the whole table. */
  lemma {:induction false} TableStepFails(k: Kind, g0: Graph, before: Graph, table: seq<(string, Json)>,
                                          d: Dicts, i: nat, tes: seq<(string, seq<Effect>)>)
    requires i < |table| && TableEffects(k, table[..i], d) == Some(tes) && ApplyTable(k, g0, tes) == Some(before)
    requires TriggerEffects(k, table[i].0, table[i].1, d).None? ||
      ApplyTrigger(k, before, table[i].0, TriggerEffects(k, table[i].0, table[i].1, d).value).None?
    ensures AddTable(k, g0, table, d).None?
  {
    if TableEffects(k, table, d).Some? {
      var all := TableEffects(k, table, d).value;
      TableEffectsPrefix(k, table, d, i + 1);
      TableEffectsSnoc(k, table, d, i, tes);
      var row := (table[i].0, TriggerEffects(k, table[i].0, table[i].1, d).value);
      assert all[..i + 1] == tes + [row];
      ApplyTableSnoc(k, g0, tes, row, before);
      if ApplyTable(k, g0, all).Some? {
        ApplyTablePrefix(k, g0, all, i + 1);
      }
    }
  }

  /** The third (actions) or fourth (events) loop of `build_graph`. */
  method AddTableRows(g: DiGraph, k: Kind, table: seq<(string, Json)>, d: Dicts) returns (ok: bool)
    modifies g
    ensures ok <==> AddTable(k, old(g.Value()), table, d).Some?
    ensures ok ==> g.Value() == AddTable(k, old(g.Value()), table, d).value
  {
    ghost var g0 := g.Value();
    ghost var tes: seq<(string, seq<Effect>)> := [];
    for i := 0 to |table|
      invariant |tes| == i
      invariant TableEffects(k, table[..i], d) == Some(tes)
      invariant ApplyTable(k, g0, tes) == Some(g.Value())
    {
      ghost var before := g.Value();
      var okT := AddTriggerRows(g, k, table[i].0, table[i].1, d);
      if !okT {
        TableStepFails(k, g0, before, table, d, i, tes);
        return false;
      }
      ghost var row := (table[i].0, TriggerEffects(k, table[i].0, table[i].1, d).value);
      TableEffectsSnoc(k, table, d, i, tes);
      ApplyTableSnoc(k, g0, tes, row, before);
      tes := tes + [row];
    }
    assert table[..|table|] == table;
    return true;
  }

  // ------------------------------------------------------------ build_graph

  /** `build_graph`: `ok` is false where the program raises; otherwise the
      object holds the graph `Build` describes. */
  method BuildGraph(ts: seq<(string, Json)>, acts: seq<(string, Json)>, evs: seq<(string, Json)>, d: Dicts)
    returns (g: DiGraph, ok: bool)
    ensures fresh(g)
    ensures ok <==> Build(ts, acts, evs, d).Some?
    ensures ok ==> g.Value() == Build(ts, acts, evs, d).value
  {
    g := new DiGraph();
    ok := AddTriggerNodes(g, ts);
    if ok {
      ok := GrowGraph(g, ts, acts, evs, d);
    }
  }

  /** The second and third loops of `build_graph`: the `linked` edges, then
      the action table. */
  method GrowActions(g: DiGraph, ts: seq<(string, Json)>, acts: seq<(string, Json)>, d: Dicts)
    returns (ok: bool)
    requires AllDicts(ts) && g.Value() == AddTriggers(ts).value
    modifies g
    ensures var g2 := AddLinks(AddTriggers(ts).value, Ids(ts), LinkIds(ts));
      (ok <==> AddTable(Actions, g2, acts, d).Some?) &&
      (ok ==> g.Value() == AddTable(Actions, g2, acts, d).value)
  {
    DrawLinks(g, ts);
    ok := AddTableRows(g, Actions, acts, d);
  }

  /** `Build` once the trigger nodes are in: the action table, the event
      table, then the titles. */
  lemma {:induction false} BuildSteps(ts: seq<(string, Json)>, acts: seq<(string, Json)>,
                                      evs: seq<(string, Json)>, d: Dicts)
    requires AllDicts(ts)
    ensures var g3 := AddTable(Actions, AddLinks(AddTriggers(ts).value, Ids(ts), LinkIds(ts)), acts, d);
      (g3.None? ==> Build(ts, acts, evs, d).None?) &&
      (g3.Some? && AddTable(Events, g3.value, evs, d).None? ==> Build(ts, acts, evs, d).None?) &&
      (g3.Some? && AddTable(Events, g3.value, evs, d).Some? ==>
        Build(ts, acts, evs, d) == Some(Finalize(AddTable(Events, g3.value, evs, d).value)))
  {
  }

  /** The loops of `build_graph` after the first. */
  method GrowGraph(g: DiGraph, ts: seq<(string, Json)>, acts: seq<(string, Json)>, evs: seq<(string, Json)>, d: Dicts)
    returns (ok: bool)
    requires AllDicts(ts) && g.Value() == AddTriggers(ts).value
    modifies g
    ensures ok <==> Build(ts, acts, evs, d).Some?
    ensures ok ==> g.Value() == Build(ts, acts, evs, d).value
  {
    BuildSteps(ts, acts, evs, d);
    ok := GrowActions(g, ts, acts, d);
    if ok {
      ok := AddTableRows(g, Events, evs, d);
      if ok {
        g.FinalizeTitles();
      }
    }
  }

  /** `build_graph` followed by `main`'s relabelling pass, which leaves the
      built graph as it is. */
  method BuildAndRelabel(ts: seq<(string, Json)>, acts: seq<(string, Json)>, evs: seq<(string, Json)>, d: Dicts)
    returns (g: DiGraph, ok: bool)
    ensures ok <==> Build(ts, acts, evs, d).Some?
    ensures ok ==> g.Value() == Build(ts, acts, evs, d).value
  {
    g, ok := BuildGraph(ts, acts, evs, d);
    if ok {
      BuildRecanonIdentity(ts, acts, evs, d);
      RecanonIdentity(g.Value());
      g.RecanonLabels();
    }
  }
}
