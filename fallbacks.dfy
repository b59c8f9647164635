/** The fallback metadata `main` adds to the action and condition
    dictionaries before it builds the graph: edge rules for a few actions
    and local dependencies for two conditions, each used only where the
    dictionary does not already say something under that key. */
module Fallbacks {
  import opened Wrappers
  import opened PyValue
  import opened Format
  import opened TriggerGraph

  /** One edge rule reading the action's second parameter. */
  function Rule(to: string, verb: string, style: string): Json {
    JObj([(JStr("to"), JStr(to)), (JStr("from_param"), JInt(2)), (JStr("label"), JStr(verb)), (JStr("style"), JStr(style))])
  }

  /** A dependency of a condition on the local named by its second
      parameter. */
  const LocalDependency: Json :=
    JObj([(JStr("param"), JInt(2)), (JStr("type"), JStr("local_id")), (JStr("role"), JStr("depends_on"))])

  /** The `produces_edges` fallbacks, by action code. */
  const ActionFallbacks: seq<(int, Json)> := [
    (12, JList([Rule("trigger_id", "destroy", "solid")])),
    (22, JList([Rule("trigger_id", "force", "solid")])),
    (53, JList([Rule("trigger_id", "enable", "solid")])),
    (54, JList([Rule("trigger_id", "disable", "solid")])),
    (56, JList([Rule("local_id", "set_local", "dashed")])),
    (57, JList([Rule("local_id", "disable_local", "dashed")]))
  ]

  /** The `references` fallbacks, by condition code. */
  const ConditionFallbacks: seq<(int, Json)> := [
    (36, JList([LocalDependency])),
    (37, JList([LocalDependency]))
  ]

  function Codes(table: seq<(int, Json)>): set<int> {
    set i | 0 <= i < |table| :: table[i].0
  }

  /** A table lists each code once (it is a dict literal). */
  predicate DistinctCodes(table: seq<(int, Json)>) {
    forall i, j :: 0 <= i < j < |table| ==> table[i].0 != table[j].0
  }

  /** `d.setdefault(key, v)` on a dict: an existing entry under `key` is
      kept; otherwise `key` is appended with the value `v`. */
  function SetDefault(obj: Json, key: string, v: Json): (r: Json)
    requires obj.JObj?
    ensures r.JObj? && HasKey(r.entries, key)
    ensures HasKey(obj.entries, key) ==> r == obj
    ensures !HasKey(obj.entries, key) ==> r.entries == obj.entries + [(JStr(key), v)] && Get(r, key) == v
  {
    if HasKey(obj.entries, key) then obj
    else
      var es := obj.entries + [(JStr(key), v)];
      assert es[|obj.entries|].0 == JStr(key);
      assert forall i :: 0 <= i < |obj.entries| ==> es[i].0 != JStr(key) by {
        forall i | 0 <= i < |obj.entries| ensures es[i].0 != JStr(key) {
          assert es[i] == obj.entries[i];
        }
      }
      GetIs(es, key, |obj.entries|);
      JObj(es)
  }

  /** What `dict.setdefault(code, {})` returns. */
  function EntryOrEmpty(dict: map<int, Json>, code: int): Json {
    if code in dict then dict[code] else JObj([])
  }

  /** The codes of a table and of its prefixes. */
  lemma {:induction false} CodesLast(table: seq<(int, Json)>)
    requires |table| > 0
    ensures Codes(table) == Codes(table[..|table| - 1]) + {table[|table| - 1].0}
  {
    var n := |table| - 1;
    forall c | c in Codes(table) ensures c in Codes(table[..n]) + {table[n].0} {
      var i :| 0 <= i < |table| && table[i].0 == c;
      if i < n {
        assert table[..n][i] == table[i];
      }
    }
    forall c | c in Codes(table[..n]) ensures c in Codes(table) {
      var i :| 0 <= i < n && table[..n][i].0 == c;
      assert table[i] == table[..n][i];
    }
  }

  lemma {:induction false} CodesPrefix(table: seq<(int, Json)>, n: nat)
    requires n <= |table|
    ensures Codes(table[..n]) <= Codes(table)
  {
    forall c | c in Codes(table[..n]) ensures c in Codes(table) {
      var i :| 0 <= i < n && table[..n][i].0 == c;
      assert table[i] == table[..n][i];
    }
  }

  /** The dictionary has no dict under `code`, or one without `key`. */
  predicate Lacks(dict: map<int, Json>, code: int, key: string) {
    code !in dict || (dict[code].JObj? && !HasKey(dict[code].entries, key))
  }

  /** Every code of `codes` that the dictionary has maps to a dict
      (otherwise the second `setdefault` raises). */
  predicate ReadyFor(dict: map<int, Json>, codes: set<int>) {
    forall c :: c in codes && c in dict ==> dict[c].JObj?
  }

  /** `dict.setdefault(code, {}).setdefault(key, v)` for each `(code, v)` of
      the table, in order. */
  function WithFallbacks(dict: map<int, Json>, table: seq<(int, Json)>, key: string): (r: map<int, Json>)
    requires ReadyFor(dict, Codes(table))
    ensures r.Keys == dict.Keys + Codes(table)
    ensures forall c :: c in r && c !in Codes(table) ==> r[c] == dict[c]
    ensures forall c :: c in Codes(table) ==> r[c].JObj? && HasKey(r[c].entries, key)
    decreases |table|
  {
    if table == [] then dict
    else
      var n := |table| - 1;
      CodesLast(table);
      var d1 := WithFallbacks(dict, table[..n], key);
      var code := table[n].0;
      d1[code := SetDefault(EntryOrEmpty(d1, code), key, table[n].1)]
  }

  /** With distinct codes, each code of the table ends up holding its dict
      from the dictionary (or an empty one) with `key` set to the fallback
      unless it was already there. */
  lemma {:induction false} FallbackEntry(dict: map<int, Json>, table: seq<(int, Json)>, key: string, i: nat)
    requires ReadyFor(dict, Codes(table)) && DistinctCodes(table) && i < |table|
    ensures WithFallbacks(dict, table, key)[table[i].0] == SetDefault(EntryOrEmpty(dict, table[i].0), key, table[i].1)
    decreases |table|
  {
    var n := |table| - 1;
    CodesLast(table);
    var d1 := WithFallbacks(dict, table[..n], key);
    if i < n {
      assert table[..n][i] == table[i];
      assert DistinctCodes(table[..n]) by {
        forall a, b | 0 <= a < b < n ensures table[..n][a].0 != table[..n][b].0 {
          assert table[..n][a] == table[a] && table[..n][b] == table[b];
        }
      }
      FallbackEntry(dict, table[..n], key, i);
      assert table[n].0 != table[i].0;
    } else {
      assert table[n].0 !in Codes(table[..n]) by {
        forall j | 0 <= j < n ensures table[..n][j].0 != table[n].0 {
          assert table[..n][j] == table[j];
        }
      }
      assert EntryOrEmpty(d1, table[n].0) == EntryOrEmpty(dict, table[n].0);
    }
  }

  /** The table's next row extends the fold by one `setdefault` pair. */
  lemma {:induction false} WithFallbacksStep(dict: map<int, Json>, table: seq<(int, Json)>, key: string, i: nat)
    requires ReadyFor(dict, Codes(table)) && i < |table|
    ensures ReadyFor(dict, Codes(table[..i])) && ReadyFor(dict, Codes(table[..i + 1]))
    ensures var d1 := WithFallbacks(dict, table[..i], key);
      var code := table[i].0;
      EntryOrEmpty(d1, code).JObj? &&
      WithFallbacks(dict, table[..i + 1], key) == d1[code := SetDefault(EntryOrEmpty(d1, code), key, table[i].1)]
  {
    CodesPrefix(table, i);
    CodesPrefix(table, i + 1);
    assert table[..i + 1][..i] == table[..i];
    assert table[..i + 1][i] == table[i];
    CodesLast(table[..i + 1]);
  }

  /** One of `main`'s two fallback loops. */
  method AddFallbacks(dict: map<int, Json>, table: seq<(int, Json)>, key: string) returns (r: map<int, Json>)
    requires ReadyFor(dict, Codes(table))
    ensures r == WithFallbacks(dict, table, key)
  {
    r := dict;
    CodesPrefix(table, 0);
    for i := 0 to |table|
      invariant ReadyFor(dict, Codes(table[..i]))
      invariant r == WithFallbacks(dict, table[..i], key)
    {
      WithFallbacksStep(dict, table, key, i);
      var code := table[i].0;
      var entry := if code in r then r[code] else JObj([]);
      r := r[code := SetDefault(entry, key, table[i].1)];
    }
    assert table[..|table|] == table;
  }

  /** Both of `main`'s fallback loops: edge rules for actions 12, 22, 53, 54,
      56 and 57 and local dependencies for conditions 36 and 37, wherever the
      loaded dictionaries lack them. */
  method MainFallbacks(actions: map<int, Json>, conditions: map<int, Json>)
    returns (actions2: map<int, Json>, conditions2: map<int, Json>)
    requires ReadyFor(actions, Codes(ActionFallbacks)) && ReadyFor(conditions, Codes(ConditionFallbacks))
    ensures actions2 == WithFallbacks(actions, ActionFallbacks, "produces_edges")
    ensures conditions2 == WithFallbacks(conditions, ConditionFallbacks, "references")
  {
    actions2 := AddFallbacks(actions, ActionFallbacks, "produces_edges");
    conditions2 := AddFallbacks(conditions, ConditionFallbacks, "references");
  }

  /** A dictionary entry that already has the key is left exactly as it
      was. */
  lemma {:induction false} DefinedKept(dict: map<int, Json>, table: seq<(int, Json)>, key: string, i: nat)
    requires ReadyFor(dict, Codes(table)) && DistinctCodes(table) && i < |table|
    requires table[i].0 in dict && dict[table[i].0].JObj? && HasKey(dict[table[i].0].entries, key)
    ensures WithFallbacks(dict, table, key)[table[i].0] == dict[table[i].0]
  {
    FallbackEntry(dict, table, key, i);
  }

  /** Where the key is missing, the entry gains it with the fallback value,
      keeping its other entries in order. */
  lemma {:induction false} MissingFilled(dict: map<int, Json>, table: seq<(int, Json)>, key: string, i: nat)
    requires ReadyFor(dict, Codes(table)) && DistinctCodes(table) && i < |table|
    requires Lacks(dict, table[i].0, key)
    ensures var e := WithFallbacks(dict, table, key)[table[i].0];
      e.JObj? && Get(e, key) == table[i].1 &&
      e.entries == EntryOrEmpty(dict, table[i].0).entries + [(JStr(key), table[i].1)]
  {
    FallbackEntry(dict, table, key, i);
  }

  // ------------------------------------------------------------ in the graph

  /** The label of the `i`-th action fallback. */
  function FallbackLabel(i: nat): string
    requires i < 6
  {
    ["destroy", "force", "enable", "disable", "set_local", "disable_local"][i]
  }

  /** Where the key was missing, the entry's metadata, as the graph
      builder reads it, is a dict holding the fallback under the key. */
  lemma {:induction false} FallbackMeta(dict: map<int, Json>, table: seq<(int, Json)>, key: string, i: nat)
    requires ReadyFor(dict, Codes(table)) && DistinctCodes(table) && i < |table|
    requires Lacks(dict, table[i].0, key)
    ensures var meta := MetaOf(WithFallbacks(dict, table, key), table[i].0);
      meta.JObj? && Get(meta, key) == table[i].1
  {
    MissingFilled(dict, table, key, i);
    var e := WithFallbacks(dict, table, key)[table[i].0];
    assert |e.entries| > 0;
  }

  lemma ActionFallbacksDistinct()
    ensures DistinctCodes(ActionFallbacks) && DistinctCodes(ConditionFallbacks)
  {
  }

  /** The rules of a single-element list draw what the one rule draws. */
  lemma {:induction false} SingleRule(tid: string, params: seq<Json>, locals: map<string, Json>, x: Json)
    ensures RulesDraws(tid, params, locals, [x]) == RuleDraws(tid, params, locals, x)
  {
    assert [x][..0] == [];
    match RuleDraws(tid, params, locals, x)
    case None =>
    case Some(d1) => assert [] + d1 == d1;
  }

  /** The references of a single-element list draw what the one reference
      draws. */
  lemma {:induction false} SingleRef(tid: string, code: int, params: seq<Json>, locals: map<string, Json>, x: Json)
    ensures RefsDraws(tid, code, params, locals, [x]) == DependsDraws(tid, code, params, locals, x)
  {
    assert [x][..0] == [];
    match DependsDraws(tid, code, params, locals, x)
    case None =>
    case Some(d1) => assert [] + d1 == d1;
  }

  /** A trigger fallback rule, for a numeric second parameter in
      0..99,999,999, draws one solid edge labelled with its verb to the
      trigger with that eight-digit id. */
  lemma {:induction false} RuleDrawsEdge(verb: string, tid: string, params: seq<Json>,
                                         locals: map<string, Json>, n: int)
    requires IsCanonical(JStr(verb)) && |params| >= 2 && params[1] == JInt(n) && 0 <= n <= MaxPadded
    ensures RuleDraws(tid, params, locals, Rule("trigger_id", verb, "solid")) ==
      Some([Draw(Pad8(JInt(n)), PlainTrigger(Pad8(JInt(n))), (tid, Pad8(JInt(n))), Edge(JStr(verb), JStr("solid")))])
  {
    var rule := Rule("trigger_id", verb, "solid");
    GetIs(rule.entries, "to", 0);
    GetIs(rule.entries, "from_param", 1);
    GetIs(rule.entries, "label", 2);
    GetIs(rule.entries, "style", 3);
    assert ParamValue(Get(rule, "from_param"), 7, params) == Some(JInt(n));
    assert GetOr(rule, "label", JStr("")) == JStr(verb);
    assert GetOr(rule, "style", JStr("solid")) == JStr("solid");
    assert RuleTarget(Get(rule, "to"), JInt(n), locals) == Some(Target(PadId(Str(JInt(n))), PlainTrigger(PadId(Str(JInt(n))))));
    TriggerRuleEdge(tid, params, locals, rule, n);
  }

  /** An action among 12, 22, 53 and 54 that the dictionary leaves without
      rules draws, for a numeric second parameter in 0..99,999,999, a solid
      edge from its trigger to the trigger with that eight-digit id,
      labelled with the fallback's verb. */
  lemma {:induction false} FallbackTriggerEdge(actions: map<int, Json>, i: nat, tid: string, params: seq<Json>,
                                               locals: map<string, Json>, n: int)
    requires ReadyFor(actions, Codes(ActionFallbacks)) && i < 4
    requires Lacks(actions, ActionFallbacks[i].0, "produces_edges")
    requires |params| >= 2 && params[1] == JInt(n) && 0 <= n <= MaxPadded
    ensures var meta := MetaOf(WithFallbacks(actions, ActionFallbacks, "produces_edges"), ActionFallbacks[i].0);
      meta.JObj? && Iterable(Or(Get(meta, "produces_edges"), JList([]))) &&
      RulesDraws(tid, params, locals, ListOf(meta, "produces_edges")) ==
        Some([Draw(Pad8(JInt(n)), PlainTrigger(Pad8(JInt(n))), (tid, Pad8(JInt(n))),
                   Edge(JStr(FallbackLabel(i)), JStr("solid")))])
  {
    var code := ActionFallbacks[i].0;
    var rule := Rule("trigger_id", FallbackLabel(i), "solid");
    assert ActionFallbacks[i].1 == JList([rule]);
    ActionFallbacksDistinct();
    FallbackMeta(actions, ActionFallbacks, "produces_edges", i);
    var meta := MetaOf(WithFallbacks(actions, ActionFallbacks, "produces_edges"), code);
    assert ListOf(meta, "produces_edges") == [rule];
    SingleRule(tid, params, locals, rule);
    RuleDrawsEdge(FallbackLabel(i), tid, params, locals, n);
  }

  /** Condition 36 (37), left without references, makes an event whose
      second parameter names a local in the locals table draw a dashed
      `depends_on_true` (`depends_on_false`) edge from the local's node to
      the trigger. */
  lemma {:induction false} FallbackDependsEdge(conditions: map<int, Json>, i: nat, tid: string, params: seq<Json>,
                                               locals: map<string, Json>)
    requires ReadyFor(conditions, Codes(ConditionFallbacks)) && i < 2
    requires Lacks(conditions, ConditionFallbacks[i].0, "references")
    requires |params| >= 2 && params[1] != JNull && LocalInfo(params[1], locals).JObj?
    ensures var code := ConditionFallbacks[i].0;
      var meta := MetaOf(WithFallbacks(conditions, ConditionFallbacks, "references"), code);
      meta.JObj? && Iterable(Or(Get(meta, "references"), JList([]))) &&
      var ds := RefsDraws(tid, code, params, locals, ListOf(meta, "references"));
      ds.Some? && |ds.value| == 1 && ds.value[0].edge == (LocalId(params[1]), tid) &&
      ds.value[0].attrs.style == JStr("dashed") &&
      ds.value[0].attrs.caption == JStr(if i == 0 then "depends_on_true" else "depends_on_false")
  {
    var code := ConditionFallbacks[i].0;
    assert ConditionFallbacks[i].1 == JList([LocalDependency]);
    ActionFallbacksDistinct();
    FallbackMeta(conditions, ConditionFallbacks, "references", i);
    var meta := MetaOf(WithFallbacks(conditions, ConditionFallbacks, "references"), code);
    assert ListOf(meta, "references") == [LocalDependency];
    SingleRef(tid, code, params, locals, LocalDependency);
    LocalDependencyEdge(tid, code, params, locals);
  }

  /** The local dependency fallback, for a second parameter naming a local,
      draws one dashed edge from that local's node. */
  lemma {:induction false} LocalDependencyEdge(tid: string, code: int, params: seq<Json>, locals: map<string, Json>)
    requires |params| >= 2 && params[1] != JNull && LocalInfo(params[1], locals).JObj?
    ensures var ds := DependsDraws(tid, code, params, locals, LocalDependency);
      ds.Some? && |ds.value| == 1 && ds.value[0].edge == (LocalId(params[1]), tid) &&
      ds.value[0].attrs.style == JStr("dashed") &&
      (code == 36 ==> ds.value[0].attrs.caption == JStr("depends_on_true")) &&
      (code == 37 ==> ds.value[0].attrs.caption == JStr("depends_on_false"))
  {
    GetIs(LocalDependency.entries, "param", 0);
    GetIs(LocalDependency.entries, "type", 1);
    GetIs(LocalDependency.entries, "role", 2);
    assert DependsRef(LocalDependency);
    assert ParamValue(Get(LocalDependency, "param"), 3, params) == Some(params[1]);
    assert DependsDraws(tid, code, params, locals, LocalDependency).Some?;
    DependsEdge(tid, code, params, locals, LocalDependency);
  }
}
