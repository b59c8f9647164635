/** The trigger graph `build_graph` produces, as a value: trigger nodes,
    local-variable nodes and typed target nodes, edges for trigger links,
    for the edge rules of actions and for the local variables events depend
    on, and the tooltips that list each trigger's actions and events.  Every
    function here is the specification of one loop of the builder, which
    `GraphBuild` runs step by step on a mutable graph.

    A Python exception while building (a value that is not a dict where
    `.get` is called on it, a label `canon_label` cannot hash, a metadata
    record the formatters reject, a summary list appended to a node that has
    none) makes a specification return `None`. */
module TriggerGraph {
  import opened Wrappers
  import opened Text
  import opened PyValue
  import opened Normalize
  import opened Format

  // ------------------------------------------------------------ the graph

  /** The summary lines a trigger node collects: `_sum_events`, `_sum_actions`. */
  datatype Sums = Sums(events: seq<string>, actions: seq<string>)

  /** The attributes of a node: `type`, `label`, `title`, a trigger's `name`
      and `house`, a local's `initial`, and the summary lists a trigger node
      carries until its tooltip is finalised.  An attribute the node was
      never given is `JNull`. */
  datatype Node = Node(kind: Json, caption: string, title: string, name: Json, house: Json,
                       initial: Json, sums: Option<Sums>)

  /** The attributes of an edge: `label` and `style`. */
  datatype Edge = Edge(caption: Json, style: Json)

  /** An `nx.DiGraph`: nodes by id, and at most one edge per ordered pair. */
  datatype Graph = Graph(nodes: map<string, Node>, edges: map<(string, string), Edge>)

  const EmptyGraph: Graph := Graph(map[], map[])

  /** A label `canon_label` accepts and leaves as it is. */
  predicate CanonFixed(lbl: Json) {
    (!Truthy(lbl) || Hashable(lbl)) && CanonLabel(lbl) == lbl
  }

  /** What every graph the builder makes satisfies: each edge joins two
      nodes and carries a canonical label, and only trigger nodes carry
      summary lists. */
  predicate WellFormed(g: Graph) {
    (forall e :: e in g.edges ==> e.0 in g.nodes && e.1 in g.nodes && CanonFixed(g.edges[e].caption)) &&
    (forall id :: id in g.nodes && g.nodes[id].sums.Some? ==> g.nodes[id].kind == JStr("trigger"))
  }

  /** `r` has every node of `g` with the same attributes. */
  predicate KeepsNodes(g: Graph, r: Graph) {
    forall id :: id in g.nodes ==> id in r.nodes && r.nodes[id] == g.nodes[id]
  }

  /** `r` has every node of `g` with the same attributes, apart from lines
      appended to its summary lists. */
  predicate Extends(g: Graph, r: Graph) {
    forall id :: id in g.nodes ==> id in r.nodes && SameButSums(g.nodes[id], r.nodes[id])
  }

  predicate SameButSums(a: Node, b: Node) {
    a.(sums := b.sums) == b && (a.sums.Some? <==> b.sums.Some?)
  }

  /** `if id not in G: G.add_node(id, ...)`. */
  function Touch(g: Graph, id: string, n: Node): (r: Graph)
    ensures r.edges == g.edges && id in r.nodes && KeepsNodes(g, r)
    ensures forall x :: x in r.nodes ==> x in g.nodes || x == id
    ensures id !in g.nodes ==> r.nodes[id] == n
  {
    if id in g.nodes then g else g.(nodes := g.nodes[id := n])
  }

  /** `G.add_edge(u, v, label=..., style=...)`: adds the edge, or replaces
      the attributes of the edge already there. */
  function Connect(g: Graph, u: string, v: string, e: Edge): Graph {
    g.(edges := g.edges[(u, v) := e])
  }

  /** The edge `canon_label(lbl)` labels, with its style. */
  function LabelledEdge(lbl: Json, style: Json): (e: Edge)
    requires !Truthy(lbl) || Hashable(lbl)
    ensures CanonFixed(e.caption) && e.style == style
    ensures IsCanonical(lbl) ==> e.caption == lbl
  {
    CanonLabelIdempotent(lbl);
    Edge(CanonLabel(lbl), style)
  }

  // ------------------------------------------------------------ ids

  /** `s.zfill(8) if s.isdigit() and len(s) <= 8 else s`: the eight-digit
      form of a trigger id. */
  function PadId(s: string): string {
    if IsDigits(s) && |s| <= 8 then ZFill(s, 8) else s
  }

  /** A digit id of at most 8 characters becomes exactly 8 digits with the
      same value; any other text is kept, so padding twice is padding once. */
  lemma {:induction false} PadIdKeepsValue(s: string)
    ensures IsDigits(s) && |s| <= 8 ==>
      |PadId(s)| == 8 && IsDigits(PadId(s)) && DigitsValue(PadId(s)) == DigitsValue(s)
    ensures !(IsDigits(s) && |s| <= 8) ==> PadId(s) == s
    ensures PadId(PadId(s)) == PadId(s)
  {
    if IsDigits(s) && |s| <= 8 {
      var z := Zeros(8 - |s|);
      assert ZFill(s, 8) == z + s by {
        if |s| == 8 {
          assert z == [];
        } else {
          assert !(s[0] == '+' || s[0] == '-');
        }
      }
      DigitsValueLeadingZeros(8 - |s|, s);
      assert forall i :: 0 <= i < 8 ==> IsDigit((z + s)[i]) by {
        forall i | 0 <= i < 8 ensures IsDigit((z + s)[i]) {
          if i >= |z| {
            assert (z + s)[i] == s[i - |z|];
          }
        }
      }
    }
  }

  /** The node id of a trigger-id parameter `n` in 0..99,999,999 is the
      text the summaries show for it: `_pad8(n)`. */
  lemma {:induction false} PadIdMatchesPad8(n: int)
    requires 0 <= n <= MaxPadded
    ensures PadId(Str(JInt(n))) == Pad8(JInt(n))
  {
    var s := IntToString(n);
    assert Str(JInt(n)) == s;
    PaddedLength(n);
    assert IsDigits(s) && |s| <= 8;
  }

  // ------------------------------------------------------------ trigger nodes

  /** `t.get('name') or t.get('Name') or ''`. */
  function TriggerName(t: Json): Json
    requires t.JObj?
  {
    Or(Or(Get(t, "name"), Get(t, "Name")), JStr(""))
  }

  /** `t.get('house') or t.get('HOUSE') or t.get('House') or ''`. */
  function TriggerHouse(t: Json): Json
    requires t.JObj?
  {
    Or(Or(Or(Get(t, "house"), Get(t, "HOUSE")), Get(t, "House")), JStr(""))
  }

  /** The lines of a trigger's title: its name in bold, its house, its id. */
  function TitleLines(tid: string, name: Json, house: Json): (r: seq<string>)
    ensures r != [] && r[|r| - 1] == "ID: " + tid
    ensures Truthy(name) ==> r[0] == "<b>" + Str(name) + "</b>"
  {
    (if Truthy(name) then ["<b>" + Str(name) + "</b>"] else []) +
    (if Truthy(house) then ["House: " + Str(house)] else []) +
    ["ID: " + tid]
  }

  /** The node of entry `tid` of the trigger table: captioned with the id
      and, below it, the shortened name; titled with the name, the house and
      the id; with empty summary lists. */
  function TriggerNode(tid: string, t: Json): (n: Node)
    requires t.JObj?
    ensures n.kind == JStr("trigger") && n.sums == Some(Sums([], []))
  {
    var name := TriggerName(t);
    var house := TriggerHouse(t);
    Node(JStr("trigger"), if Truthy(name) then tid + "\n" + Short(name) else tid,
         Join(TitleLines(tid, name, house), "\n"), name, house, JNull, Some(Sums([], [])))
  }

  /** A trigger's caption is its id, followed on a second line by at most 23
      characters of its name when it has one; its title starts with the name
      in bold and ends with the id. */
  lemma {:induction false} TriggerNodeText(tid: string, t: Json)
    requires t.JObj?
    ensures var n := TriggerNode(tid, t);
      n.name == TriggerName(t) && n.house == TriggerHouse(t) &&
      (Truthy(n.name) ==> StartsWith(n.caption, tid + "\n") && |n.caption| <= |tid| + 1 + ShortWidth + 1) &&
      (!Truthy(n.name) ==> n.caption == tid) &&
      EndsWith(n.title, "ID: " + tid) &&
      (Truthy(n.name) ==> StartsWith(n.title, "<b>" + Str(n.name) + "</b>"))
  {
    var name := TriggerName(t);
    var lines := TitleLines(tid, name, TriggerHouse(t));
    JoinEndsWith(lines, "\n");
    JoinStartsWith(lines, "\n");
    if Truthy(name) {
      var head := tid + "\n";
      assert (head + Short(name))[..|head|] == head;
    }
  }

  /** A trigger node added where an id is first mentioned (a linked id, an
      action or event table key, a `trigger_id` target): captioned with the
      id, titled `ID: <id>`, with empty summary lists. */
  function PlainTrigger(id: string): Node {
    Node(JStr("trigger"), id, "ID: " + id, JNull, JNull, JNull, Some(Sums([], [])))
  }

  /** Every entry is a dict (`t.get` raises otherwise). */
  predicate AllDicts(ts: seq<(string, Json)>) {
    forall i :: 0 <= i < |ts| ==> ts[i].1.JObj?
  }

  // ------------------------------------------------------------ drawing

  /** One drawing step of the builder: the node `at` added unless it is
      already there, then the edge `edge` added or relabelled. */
  datatype Draw = Draw(at: string, node: Node, edge: (string, string), attrs: Edge)

  /** A draw whose edge joins its own node to one of `ids`, with a canonical
      label, and whose node carries summary lists only if it is a trigger. */
  predicate Fits(dr: Draw, ids: set<string>) {
    (dr.edge.0 == dr.at || dr.edge.0 in ids) && (dr.edge.1 == dr.at || dr.edge.1 in ids) &&
    CanonFixed(dr.attrs.caption) && (dr.node.sums.Some? ==> dr.node.kind == JStr("trigger"))
  }

  predicate AllFit(ds: seq<Draw>, ids: set<string>) {
    forall i :: 0 <= i < |ds| ==> Fits(ds[i], ids)
  }

  lemma {:induction false} AllFitWithin(ds: seq<Draw>, a: set<string>, b: set<string>)
    requires AllFit(ds, a) && a <= b
    ensures AllFit(ds, b)
  {
    forall i | 0 <= i < |ds| ensures Fits(ds[i], b) {
      assert Fits(ds[i], a);
    }
  }

  function ApplyDraw(g: Graph, dr: Draw): (r: Graph)
    ensures KeepsNodes(g, r) && dr.at in r.nodes
    ensures r.edges == g.edges[dr.edge := dr.attrs]
    ensures forall x :: x in r.nodes ==> x in g.nodes || x == dr.at
    ensures WellFormed(g) && Fits(dr, g.nodes.Keys) ==> WellFormed(r)
  {
    Connect(Touch(g, dr.at, dr.node), dr.edge.0, dr.edge.1, dr.attrs)
  }

  /** The edges once the draws `ds` are applied to the edges `es`: each
      draw's pair set to its attributes, later draws overriding earlier
      ones. */
  function DrawnEdges(es: map<(string, string), Edge>, ds: seq<Draw>): (r: map<(string, string), Edge>)
    ensures r.Keys == es.Keys + set i | 0 <= i < |ds| :: ds[i].edge
    decreases |ds|
  {
    if ds == [] then es
    else
      var n := |ds| - 1;
      var r := DrawnEdges(es, ds[..n]);
      assert (set i | 0 <= i < |ds| :: ds[i].edge) == (set i | 0 <= i < n :: ds[..n][i].edge) + {ds[n].edge} by {
        forall i | 0 <= i < n ensures ds[..n][i] == ds[i] {}
      }
      r[ds[n].edge := ds[n].attrs]
  }

  /** Draws applied in order. */
  function ApplyDraws(g: Graph, ds: seq<Draw>): (r: Graph)
    ensures KeepsNodes(g, r) && r.edges == DrawnEdges(g.edges, ds)
    ensures WellFormed(g) && AllFit(ds, g.nodes.Keys) ==> WellFormed(r)
    decreases |ds|
  {
    if ds == [] then g
    else
      var n := |ds| - 1;
      var g1 := ApplyDraws(g, ds[..n]);
      assert AllFit(ds, g.nodes.Keys) ==> AllFit(ds[..n], g.nodes.Keys) && Fits(ds[n], g1.nodes.Keys);
      ApplyDraw(g1, ds[n])
  }

  /** Each draw's pair carries that draw's label and style unless a later
      draw sets the same pair. */
  lemma {:induction false} LastDrawWins(es: map<(string, string), Edge>, ds: seq<Draw>, i: nat)
    requires i < |ds| && forall j :: i < j < |ds| ==> ds[j].edge != ds[i].edge
    ensures ds[i].edge in DrawnEdges(es, ds) && DrawnEdges(es, ds)[ds[i].edge] == ds[i].attrs
    decreases |ds|
  {
    var n := |ds| - 1;
    if i < n {
      assert forall j :: i < j < n ==> ds[..n][j].edge != ds[..n][i].edge by {
        forall j | i < j < n ensures ds[..n][j].edge != ds[..n][i].edge {
          assert ds[..n][j] == ds[j] && ds[..n][i] == ds[i];
        }
      }
      LastDrawWins(es, ds[..n], i);
      assert ds[..n][i] == ds[i];
    }
  }

  // ------------------------------------------------------------ triggers

  /** Distinct keys, as a dict has. */
  predicate DistinctKeys(ts: seq<(string, Json)>) {
    forall i, j :: 0 <= i < j < |ts| ==> ts[i].0 != ts[j].0
  }

  /** The node of every entry of the trigger table. */
  function TriggerNodes(ts: seq<(string, Json)>): (r: seq<(string, Node)>)
    requires AllDicts(ts)
    ensures |r| == |ts|
    ensures forall i :: 0 <= i < |ts| ==>
      r[i].0 == ts[i].0 && r[i].1.kind == JStr("trigger") && r[i].1.sums == Some(Sums([], []))
  {
    seq(|ts|, i requires 0 <= i < |ts| => (ts[i].0, TriggerNode(ts[i].0, ts[i].1)))
  }

  /** `G.add_node(id, ...)` for each node in order; on an id already
      present every attribute is replaced. */
  function SetNodes(g: Graph, ns: seq<(string, Node)>): (r: Graph)
    ensures r.edges == g.edges
    ensures forall i :: 0 <= i < |ns| ==> ns[i].0 in r.nodes
    ensures (forall id :: id in g.nodes ==> g.nodes[id].kind == JStr("trigger")) &&
            (forall i :: 0 <= i < |ns| ==> ns[i].1.kind == JStr("trigger")) ==>
            forall id :: id in r.nodes ==> r.nodes[id].kind == JStr("trigger")
    decreases |ns|
  {
    if ns == [] then g
    else
      var n := |ns| - 1;
      var g1 := SetNodes(g, ns[..n]);
      g1.(nodes := g1.nodes[ns[n].0 := ns[n].1])
  }

  /** With distinct ids, each id ends up with its own node. */
  lemma {:induction false} SetNodesDistinct(g: Graph, ns: seq<(string, Node)>)
    requires forall i, j :: 0 <= i < j < |ns| ==> ns[i].0 != ns[j].0
    ensures forall i :: 0 <= i < |ns| ==> SetNodes(g, ns).nodes[ns[i].0] == ns[i].1
    decreases |ns|
  {
    if ns != [] {
      var n := |ns| - 1;
      SetNodesDistinct(g, ns[..n]);
      forall i | 0 <= i < n ensures SetNodes(g, ns).nodes[ns[i].0] == ns[i].1 {
        assert ns[..n][i] == ns[i] && ns[i].0 != ns[n].0;
      }
    }
  }

  /** The first loop: a trigger node for every entry of the trigger table. */
  function AddTriggers(ts: seq<(string, Json)>): (r: Option<Graph>)
    ensures r.Some? <==> AllDicts(ts)
    ensures r.Some? ==> r.value.edges == map[] && WellFormed(r.value)
    ensures r.Some? ==> forall i :: 0 <= i < |ts| ==> ts[i].0 in r.value.nodes
    ensures r.Some? ==> forall id :: id in r.value.nodes ==> r.value.nodes[id].kind == JStr("trigger")
  {
    if AllDicts(ts) then Some(SetNodes(EmptyGraph, TriggerNodes(ts))) else None
  }

  /** With distinct ids, each trigger's node is its own trigger node. */
  lemma {:induction false} TriggerNodesOfTable(ts: seq<(string, Json)>)
    requires AllDicts(ts) && DistinctKeys(ts)
    ensures forall i :: 0 <= i < |ts| ==> AddTriggers(ts).value.nodes[ts[i].0] == TriggerNodes(ts)[i].1
  {
    SetNodesDistinct(EmptyGraph, TriggerNodes(ts));
  }

  // ------------------------------------------------------------ links

  /** `str(t.get('linked') or t.get('LINKED_TRIGGER') or t.get('linked_trigger') or '').strip()`. */
  function LinkedText(t: Json): string
    requires t.JObj?
  {
    Strip(Str(Or(Or(Or(Get(t, "linked"), Get(t, "LINKED_TRIGGER")), Get(t, "linked_trigger")), JStr(""))))
  }

  /** The texts that mean "no link", compared in lower case. */
  const NoLink: set<string> := {"<none>", "none", "null", "0"}

  /** The id of the trigger `t` names as linked, if any. */
  function LinkedId(t: Json): Option<string>
    requires t.JObj?
  {
    var s := LinkedText(t);
    if s == [] || Lower(s) in NoLink then None else Some(PadId(s))
  }


  /** A link naming a trigger by up to eight digits (other than `0`) is
      padded to the eight-digit id of the trigger table. */
  lemma {:induction false} LinkedIdPadded(t: Json)
    requires t.JObj? && IsDigits(LinkedText(t)) && |LinkedText(t)| <= 8 && LinkedText(t) != "0"
    ensures LinkedId(t).Some? && |LinkedId(t).value| == 8 && IsDigits(LinkedId(t).value)
    ensures DigitsValue(LinkedId(t).value) == DigitsValue(LinkedText(t))
  {
    var s := LinkedText(t);
    assert Lower(s) == s by {
      forall i | 0 <= i < |s| ensures Lower(s)[i] == s[i] {
        assert IsDigit(s[i]);
      }
    }
    assert !IsDigit('<') && !IsDigit('n');
    assert s !in NoLink by {
      assert s != "<none>" && s != "none" && s != "null" by {
        assert IsDigit(s[0]);
      }
    }
    PadIdKeepsValue(s);
  }

  /** Every entry's linked id, if any. */
  function LinkIds(ts: seq<(string, Json)>): (r: seq<Option<string>>)
    requires AllDicts(ts)
    ensures |r| == |ts|
  {
    seq(|ts|, i requires 0 <= i < |ts| => LinkedId(ts[i].1))
  }

  function Ids(ts: seq<(string, Json)>): (r: seq<string>)
    ensures |r| == |ts| && forall i :: 0 <= i < |ts| ==> r[i] == ts[i].0
  {
    seq(|ts|, i requires 0 <= i < |ts| => ts[i].0)
  }

  /** The dotted `linked` edge from the linked trigger `l` to `tid`, the
      node of `l` added when absent. */
  function LinkDraw(l: string, tid: string): (dr: Draw)
    ensures Fits(dr, {tid}) && dr.at == l
    ensures dr.edge == (l, tid) && dr.attrs == Edge(JStr("linked"), JStr("dot"))
  {
    CanonLabelIdempotent(JStr("linked"));
    Draw(l, PlainTrigger(l), (l, tid), Edge(CanonLabel(JStr("linked")), JStr("dot")))
  }

  /** The second loop: for each trigger `ids[i]` linked from `links[i]`,
      the link's edge. */
  function AddLinks(g: Graph, ids: seq<string>, links: seq<Option<string>>): (r: Graph)
    requires |ids| == |links|
    ensures KeepsNodes(g, r)
    ensures WellFormed(g) && (forall i :: 0 <= i < |ids| ==> ids[i] in g.nodes) ==> WellFormed(r)
    decreases |ids|
  {
    if ids == [] then g
    else
      var n := |ids| - 1;
      var g1 := AddLinks(g, ids[..n], links[..n]);
      match links[n]
      case None => g1
      case Some(l) =>
        ApplyDraw(g1, LinkDraw(l, ids[n]))
  }

  /** With distinct trigger ids, every trigger with a linked id has the
      dotted `linked` edge from it. */
  lemma {:induction false} LinksDrawn(g: Graph, ids: seq<string>, links: seq<Option<string>>)
    requires |ids| == |links| && forall i, j :: 0 <= i < j < |ids| ==> ids[i] != ids[j]
    ensures forall i :: 0 <= i < |ids| && links[i].Some? ==>
      (links[i].value, ids[i]) in AddLinks(g, ids, links).edges &&
      AddLinks(g, ids, links).edges[(links[i].value, ids[i])] == Edge(JStr("linked"), JStr("dot"))
    decreases |ids|
  {
    if ids != [] {
      var n := |ids| - 1;
      LinksDrawn(g, ids[..n], links[..n]);
      forall i | 0 <= i < |ids| && links[i].Some?
        ensures (links[i].value, ids[i]) in AddLinks(g, ids, links).edges
        ensures AddLinks(g, ids, links).edges[(links[i].value, ids[i])] == Edge(JStr("linked"), JStr("dot"))
      {
        if i < n {
          assert ids[..n][i] == ids[i] && links[..n][i] == links[i] && ids[i] != ids[n];
        }
      }
    }
  }

  // ------------------------------------------------------------ targets

  /** The local id `local:<raw>` of a local-variable parameter. */
  function LocalId(raw: Json): string {
    "local:" + Str(raw)
  }

  /** `locals_dict.get(str(raw)) or {}`. */
  function LocalInfo(raw: Json, locals: map<string, Json>): Json {
    var k := Str(raw);
    if k in locals && Truthy(locals[k]) then locals[k] else JObj([])
  }

  /** `linfo.get("name") or linfo.get("Name")`. */
  function LocalName(info: Json): Json
    requires info.JObj?
  {
    Or(Get(info, "name"), Get(info, "Name"))
  }

  /** The node of a local variable: captioned `Local <raw>` and its name,
      titled with the same and with the initial value when there is one. */
  function LocalNode(raw: Json, info: Json): (n: Node)
    requires info.JObj?
    ensures n.kind == JStr("local_var") && n.sums == None
  {
    var lname := LocalName(info);
    var initial := Get(info, "initial");
    var head := "Local " + Str(raw);
    Node(JStr("local_var"), head + (if Truthy(lname) then "\n" + Str(lname) else ""),
         LocalTitle(head, lname, initial), JNull, JNull, initial, None)
  }

  function LocalTitle(head: string, lname: Json, initial: Json): string {
    "<b>" + head + "</b>" + (if Truthy(lname) then "<br>Name: " + Str(lname) else "") +
    (if initial != JNull then "<br>Initial: " + Str(initial) else "")
  }

  /** A local's title opens with its bold heading and, when the local has
      an initial value, ends with it. */
  lemma {:induction false} LocalTitleText(head: string, lname: Json, initial: Json)
    ensures StartsWith(LocalTitle(head, lname, initial), "<b>" + head + "</b>")
    ensures initial != JNull ==> EndsWith(LocalTitle(head, lname, initial), "<br>Initial: " + Str(initial))
  {
    var bold := "<b>" + head + "</b>";
    var rest := if Truthy(lname) then "<br>Name: " + Str(lname) else "";
    var tail := if initial != JNull then "<br>Initial: " + Str(initial) else "";
    assert LocalTitle(head, lname, initial) == bold + rest + tail;
    ConcatAffixes3(bold, rest, tail);
  }

  /** A local's caption starts with `Local <raw>`, followed by its name when
      it has one; its initial value is kept, and its title opens with the
      bold heading. */
  lemma {:induction false} LocalNodeText(raw: Json, info: Json)
    requires info.JObj?
    ensures var n := LocalNode(raw, info);
      n.initial == Get(info, "initial") &&
      StartsWith(n.caption, "Local " + Str(raw)) &&
      (!Truthy(LocalName(info)) ==> n.caption == "Local " + Str(raw)) &&
      StartsWith(n.title, "<b>" + ("Local " + Str(raw)) + "</b>") &&
      (Get(info, "initial") != JNull ==> EndsWith(n.title, "<br>Initial: " + Str(Get(info, "initial"))))
  {
    var head := "Local " + Str(raw);
    var named := if Truthy(LocalName(info)) then "\n" + Str(LocalName(info)) else "";
    assert LocalNode(raw, info).caption == head + named;
    ConcatAffixes(head, named);
    assert named == [] ==> head + named == head;
    LocalTitleText(head, LocalName(info), Get(info, "initial"));
  }

  /** The node an edge rule of type `to` points at for the parameter value
      `raw`, with its id; None when the local's entry in the locals table is
      not a dict. */
  datatype Target = Target(id: string, node: Node)

  function RuleTarget(to: Json, raw: Json, locals: map<string, Json>): (r: Option<Target>)
    ensures r.Some? && r.value.node.sums.Some? ==> r.value.node.kind == JStr("trigger")
  {
    if to == JStr("trigger_id") then
      var id := PadId(Str(raw));
      Some(Target(id, PlainTrigger(id)))
    else if to == JStr("local_id") || to == JStr("local_var") then
      var info := LocalInfo(raw, locals);
      if info.JObj? then Some(Target(LocalId(raw), LocalNode(raw, info))) else None
    else
      var id := Str(to) + ":" + Str(raw);
      Some(Target(id, Node(Or(to, JStr("unknown")), id, id, JNull, JNull, JNull, None)))
  }

  /** A `trigger_id` rule targets the trigger with the eight-digit id; a
      `local_id` or `local_var` rule the local's node, unless the locals
      table holds something other than a dict for it; any other type `to`
      a node of that type, `unknown` when `to` is empty. */
  lemma {:induction false} RuleTargetCases(to: Json, raw: Json, locals: map<string, Json>)
    ensures var r := RuleTarget(to, raw, locals);
      (to == JStr("trigger_id") ==> r == Some(Target(PadId(Str(raw)), PlainTrigger(PadId(Str(raw)))))) &&
      (to == JStr("local_id") || to == JStr("local_var") ==>
        (r.Some? <==> LocalInfo(raw, locals).JObj?) &&
        (r.Some? ==> r.value.id == LocalId(raw) && r.value.node == LocalNode(raw, LocalInfo(raw, locals)))) &&
      (to != JStr("trigger_id") && to != JStr("local_id") && to != JStr("local_var") ==>
        r.Some? && r.value.id == Str(to) + ":" + Str(raw) && r.value.node.kind == Or(to, JStr("unknown")))
  {
  }

  /** `params[p - 1]` for a parameter index `p` in 1..hi, when it exists and
      is not None. */
  function ParamValue(p: Json, hi: int, params: seq<Json>): (r: Option<Json>)
    ensures r.Some? ==> r.value != JNull
    ensures r.Some? <==> ParamIndex(p, hi).Some? && ParamIndex(p, hi).value <= |params| &&
                         params[ParamIndex(p, hi).value - 1] != JNull
  {
    match ParamIndex(p, hi)
    case None => None
    case Some(i) => if i - 1 < |params| && params[i - 1] != JNull then Some(params[i - 1]) else None
  }

  // ------------------------------------------------------------ actions

  /** What one edge rule `em` of an action of trigger `tid` draws: when
      `from_param` names a parameter that is set, an edge from the trigger
      to the target it names, labelled `canon_label(label)` and styled
      `style` (default "solid"); nothing otherwise. */
  function RuleDraws(tid: string, params: seq<Json>, locals: map<string, Json>, em: Json): (r: Option<seq<Draw>>)
    ensures r.Some? ==> |r.value| <= 1 && AllFit(r.value, {tid})
  {
    if !em.JObj? then None
    else
      match ParamValue(Get(em, "from_param"), 7, params)
      case None => Some([])
      case Some(raw) =>
        var lbl := GetOr(em, "label", JStr(""));
        match RuleTarget(Get(em, "to"), raw, locals)
        case None => None
        case Some(t) =>
          if Truthy(lbl) && !Hashable(lbl) then None
          else Some([Draw(t.id, t.node, (tid, t.id), LabelledEdge(lbl, GetOr(em, "style", JStr("solid"))))])
  }

  /** The draws of an action's rules, in order. */
  function RulesDraws(tid: string, params: seq<Json>, locals: map<string, Json>, rules: seq<Json>)
    : (r: Option<seq<Draw>>)
    ensures r.Some? ==> AllFit(r.value, {tid})
    decreases |rules|
  {
    if rules == [] then Some([])
    else
      var n := |rules| - 1;
      match RulesDraws(tid, params, locals, rules[..n])
      case None => None
      case Some(ds) =>
        match RuleDraws(tid, params, locals, rules[n])
        case None => None
        case Some(d1) => Some(ds + d1)
  }

  /** A `trigger_id` rule on a numeric parameter in 0..99,999,999 draws its
      edge to the trigger with the eight-digit id the action's summary
      shows, added as a plain trigger node when absent. */
  lemma {:induction false} TriggerRuleEdge(tid: string, params: seq<Json>, locals: map<string, Json>,
                                           em: Json, n: int)
    requires em.JObj? && Get(em, "to") == JStr("trigger_id")
    requires ParamValue(Get(em, "from_param"), 7, params) == Some(JInt(n)) && 0 <= n <= MaxPadded
    requires RuleDraws(tid, params, locals, em).Some?
    ensures var ds := RuleDraws(tid, params, locals, em).value;
      |ds| == 1 && ds[0].edge == (tid, Pad8(JInt(n))) && ds[0].node == PlainTrigger(Pad8(JInt(n)))
    ensures |Pad8(JInt(n))| == 8 && ParseInt(Pad8(JInt(n))) == Some(n)
  {
    PadIdMatchesPad8(n);
    Pad8RoundTrip(JInt(n));
  }

  // ------------------------------------------------------------ events

  /** The label of an event's dependency edge: condition 36 depends on the
      local being true, 37 on it being false. */
  function DependsLabel(code: int): string {
    if code == 36 then "depends_on_true"
    else if code == 37 then "depends_on_false"
    else "depends_on"
  }

  /** A reference of type `local_id` or `local_var` with the role
      `depends_on`. */
  predicate DependsRef(r: Json)
    requires r.JObj?
  {
    (Get(r, "type") == JStr("local_id") || Get(r, "type") == JStr("local_var")) &&
    Get(r, "role") == JStr("depends_on")
  }

  /** What one reference of an event of trigger `tid` draws: for a
      dependency on a local whose parameter (1..3) is set, a dashed edge
      from the local's node to the trigger. */
  function DependsDraws(tid: string, code: int, params: seq<Json>, locals: map<string, Json>, ref: Json)
    : (r: Option<seq<Draw>>)
    ensures r.Some? ==> |r.value| <= 1 && AllFit(r.value, {tid})
  {
    if !ref.JObj? then None
    else if !DependsRef(ref) then Some([])
    else
      match ParamValue(Get(ref, "param"), 3, params)
      case None => Some([])
      case Some(raw) =>
        var info := LocalInfo(raw, locals);
        if !info.JObj? then None
        else
          var id := LocalId(raw);
          Some([Draw(id, LocalNode(raw, info), (id, tid), LabelledEdge(JStr(DependsLabel(code)), JStr("dashed")))])
  }

  /** The draws of an event's references, in order. */
  function RefsDraws(tid: string, code: int, params: seq<Json>, locals: map<string, Json>, refs: seq<Json>)
    : (r: Option<seq<Draw>>)
    ensures r.Some? ==> AllFit(r.value, {tid})
    decreases |refs|
  {
    if refs == [] then Some([])
    else
      var n := |refs| - 1;
      match RefsDraws(tid, code, params, locals, refs[..n])
      case None => None
      case Some(ds) =>
        match DependsDraws(tid, code, params, locals, refs[n])
        case None => None
        case Some(d1) => Some(ds + d1)
  }

  /** A dependency of an event on a set local draws a dashed edge from
      `local:<value>` to the trigger, labelled by whether condition 36 or 37
      wants the local true or false. */
  lemma {:induction false} DependsEdge(tid: string, code: int, params: seq<Json>,
                                       locals: map<string, Json>, ref: Json)
    requires ref.JObj? && DependsRef(ref)
    requires ParamValue(Get(ref, "param"), 3, params).Some?
    requires DependsDraws(tid, code, params, locals, ref).Some?
    ensures var raw := ParamValue(Get(ref, "param"), 3, params).value;
            var ds := DependsDraws(tid, code, params, locals, ref).value;
            |ds| == 1 && ds[0].edge == (LocalId(raw), tid) && ds[0].node.kind == JStr("local_var") &&
            ds[0].attrs.style == JStr("dashed") &&
            (code == 36 ==> ds[0].attrs.caption == JStr("depends_on_true")) &&
            (code == 37 ==> ds[0].attrs.caption == JStr("depends_on_false")) &&
            (code != 36 && code != 37 ==> ds[0].attrs.caption == JStr("depends_on"))
  {
  }

  // ------------------------------------------------------------ entries

  /** The inputs the loops read besides the trigger, action and event
      tables: the action and condition dictionaries, the locals table, and
      which copy of the visualizer runs. */
  datatype Dicts = Dicts(actions: map<int, Json>, conditions: map<int, Json>, locals: map<string, Json>, legacy: bool)

  function SummaryKind(k: Kind, legacy: bool): EntryKind {
    if k == Actions then ActionEntry(legacy) else EventEntry
  }

  function DictOf(k: Kind, d: Dicts): map<int, Json> {
    if k == Actions then d.actions else d.conditions
  }

  /** What one normalised entry does to its trigger: the summary line it
      appends, and what it draws. */
  datatype Effect = Effect(summary: string, draws: seq<Draw>)

  predicate EffectsFit(effs: seq<Effect>, tid: string) {
    forall j :: 0 <= j < |effs| ==> AllFit(effs[j].draws, {tid})
  }

  /** What an entry's rules (`produces_edges`, for an action) or local
      dependencies (`references`, for an event) draw; None when that list
      cannot be iterated or one of its items raises. */
  function EntryDraws(k: Kind, tid: string, e: Entry, d: Dicts): (r: Option<seq<Draw>>)
    ensures r.Some? ==> AllFit(r.value, {tid})
  {
    var meta := MetaOf(DictOf(k, d), e.code);
    var key := if k == Actions then "produces_edges" else "references";
    if !meta.JObj? || !Iterable(Or(Get(meta, key), JList([]))) then None
    else if k == Actions then RulesDraws(tid, e.params, d.locals, ListOf(meta, key))
    else RefsDraws(tid, e.code, e.params, d.locals, ListOf(meta, key))
  }

  /** The effect of one normalised entry of trigger `tid`: its summary line
      (`format_action_entry` / `format_event_entry`), then what it draws. */
  function EntryEffect(k: Kind, tid: string, e: Entry, d: Dicts): (r: Option<Effect>)
    ensures r.Some? ==> AllFit(r.value.draws, {tid})
  {
    var kind := SummaryKind(k, d.legacy);
    if !MetaReady(kind, e.params, MetaOf(DictOf(k, d), e.code)) then None
    else
      match EntryDraws(k, tid, e, d)
      case None => None
      case Some(ds) => Some(Effect(EntryText(kind, e.code, e.params, DictOf(k, d)), ds))
  }

  /** The effects of a trigger's entries, in order; None when any entry's
      effect raises. */
  function EntryEffects(k: Kind, tid: string, es: seq<Entry>, d: Dicts): (r: Option<seq<Effect>>)
    ensures r.Some? <==> forall i :: 0 <= i < |es| ==> EntryEffect(k, tid, es[i], d).Some?
    ensures r.Some? ==> |r.value| == |es|
    ensures r.Some? ==> forall i :: 0 <= i < |es| ==> EntryEffect(k, tid, es[i], d) == Some(r.value[i])
  {
    if forall i :: 0 <= i < |es| ==> EntryEffect(k, tid, es[i], d).Some? then
      Some(seq(|es|, i requires 0 <= i < |es| => EntryEffect(k, tid, es[i], d).value))
    else None
  }

  /** Every draw of a trigger's entries joins a node to the trigger. */
  lemma {:induction false} EntryEffectsFit(k: Kind, tid: string, es: seq<Entry>, d: Dicts)
    requires EntryEffects(k, tid, es, d).Some?
    ensures EffectsFit(EntryEffects(k, tid, es, d).value, tid)
  {
    var effs := EntryEffects(k, tid, es, d).value;
    forall j | 0 <= j < |effs| ensures AllFit(effs[j].draws, {tid}) {
      assert EntryEffect(k, tid, es[j], d) == Some(effs[j]);
    }
  }

  predicate TableFits(tes: seq<(string, seq<Effect>)>) {
    forall i :: 0 <= i < |tes| ==> EffectsFit(tes[i].1, tes[i].0)
  }

  /** The effects of every entry of the action (or event) table, by
      trigger; None when normalising a container or an entry's effect
      raises (the builder stops at the first such entry, and no graph comes
      out whichever it is). */
  function TableEffects(k: Kind, table: seq<(string, Json)>, d: Dicts): (r: Option<seq<(string, seq<Effect>)>>)
    ensures r.Some? <==> forall i :: 0 <= i < |table| ==> TriggerEffects(k, table[i].0, table[i].1, d).Some?
    ensures r.Some? ==> |r.value| == |table|
    ensures r.Some? ==> forall i :: 0 <= i < |table| ==>
      r.value[i] == (table[i].0, TriggerEffects(k, table[i].0, table[i].1, d).value)
  {
    if forall i :: 0 <= i < |table| ==> TriggerEffects(k, table[i].0, table[i].1, d).Some? then
      Some(seq(|table|, i requires 0 <= i < |table| => (table[i].0, TriggerEffects(k, table[i].0, table[i].1, d).value)))
    else None
  }

  /** The effects of the entries in the container `c` of trigger `tid`. */
  function TriggerEffects(k: Kind, tid: string, c: Json, d: Dicts): Option<seq<Effect>> {
    if !ContainerReadable(k, c) then None
    else EntryEffects(k, tid, NormalizeAll(k, Items(k, c)), d)
  }

  /** Every draw of the table joins a node to its own trigger. */
  lemma {:induction false} TableEffectsFit(k: Kind, table: seq<(string, Json)>, d: Dicts)
    requires TableEffects(k, table, d).Some?
    ensures TableFits(TableEffects(k, table, d).value)
  {
    var tes := TableEffects(k, table, d).value;
    forall i | 0 <= i < |tes| ensures EffectsFit(tes[i].1, tes[i].0) {
      var c := table[i].1;
      assert ContainerReadable(k, c);
      EntryEffectsFit(k, table[i].0, NormalizeAll(k, Items(k, c)), d);
    }
  }

  /** `G.nodes[tid]["_sum_actions"].append(s)` (or `_sum_events`). */
  function AddSummary(g: Graph, tid: string, k: Kind, s: string): (r: Graph)
    requires tid in g.nodes && g.nodes[tid].sums.Some?
    ensures r.edges == g.edges && r.nodes.Keys == g.nodes.Keys && Extends(g, r)
    ensures forall id :: id in g.nodes && id != tid ==> r.nodes[id] == g.nodes[id]
    ensures WellFormed(g) ==> WellFormed(r)
  {
    var n := g.nodes[tid];
    var s0 := n.sums.value;
    var s1 := if k == Actions then s0.(actions := s0.actions + [s]) else s0.(events := s0.events + [s]);
    g.(nodes := g.nodes[tid := n.(sums := Some(s1))])
  }

  /** The effects of `tid`'s entries applied in order; None when the node
      has no summary lists (appending to them raises). */
  function ApplyEffects(g: Graph, k: Kind, tid: string, effs: seq<Effect>): (r: Option<Graph>)
    requires tid in g.nodes
    ensures r.Some? ==> Extends(g, r.value)
    decreases |effs|
  {
    if effs == [] then Some(g)
    else
      var n := |effs| - 1;
      match ApplyEffects(g, k, tid, effs[..n])
      case None => None
      case Some(g1) =>
        assert tid in g1.nodes;
        if g1.nodes[tid].sums.None? then None
        else Some(ApplyDraws(AddSummary(g1, tid, k, effs[n].summary), effs[n].draws))
  }

  /** Applying effects whose draws join nodes to the trigger keeps a graph
      well formed. */
  lemma {:induction false} ApplyEffectsWellFormed(g: Graph, k: Kind, tid: string, effs: seq<Effect>)
    requires tid in g.nodes && ApplyEffects(g, k, tid, effs).Some?
    requires WellFormed(g) && EffectsFit(effs, tid)
    ensures WellFormed(ApplyEffects(g, k, tid, effs).value)
    decreases |effs|
  {
    if effs != [] {
      var n := |effs| - 1;
      ApplyEffectsWellFormed(g, k, tid, effs[..n]);
      var g1 := ApplyEffects(g, k, tid, effs[..n]).value;
      var g2 := AddSummary(g1, tid, k, effs[n].summary);
      AllFitWithin(effs[n].draws, {tid}, g2.nodes.Keys);
    }
  }

  /** The third (actions) or fourth (events) loop, once the effects are
      known: each trigger's node added when absent, then its effects. */
  function ApplyTable(k: Kind, g: Graph, tes: seq<(string, seq<Effect>)>): (r: Option<Graph>)
    ensures r.Some? ==> g.nodes.Keys <= r.value.nodes.Keys && Extends(g, r.value)
    decreases |tes|
  {
    if tes == [] then Some(g)
    else
      var n := |tes| - 1;
      match ApplyTable(k, g, tes[..n])
      case None => None
      case Some(g1) => ApplyTrigger(k, g1, tes[n].0, tes[n].1)
  }

  /** Every trigger of the table has a node afterwards. */
  lemma {:induction false} ApplyTableKeys(k: Kind, g: Graph, tes: seq<(string, seq<Effect>)>)
    requires ApplyTable(k, g, tes).Some?
    ensures forall i :: 0 <= i < |tes| ==> tes[i].0 in ApplyTable(k, g, tes).value.nodes
    decreases |tes|
  {
    if tes != [] {
      var n := |tes| - 1;
      assert ApplyTable(k, g, tes[..n]).Some?;
      var g1 := ApplyTable(k, g, tes[..n]).value;
      var r := ApplyTrigger(k, g1, tes[n].0, tes[n].1);
      assert ApplyTable(k, g, tes) == r;
      ApplyTableKeys(k, g, tes[..n]);
      assert r.Some?;
      assert g1.nodes.Keys <= r.value.nodes.Keys;
      assert tes[n].0 in r.value.nodes;
      forall i | 0 <= i < |tes| ensures tes[i].0 in r.value.nodes {
        if i < n {
          assert tes[..n][i] == tes[i];
          assert tes[i].0 in g1.nodes.Keys;
          assert tes[i].0 in r.value.nodes.Keys;
        } else {
          assert i == n;
        }
      }
    }
  }

  /** One trigger of the third or fourth loop: its node added when absent,
      then its entries' effects. */
  function ApplyTrigger(k: Kind, g: Graph, tid: string, effs: seq<Effect>): (r: Option<Graph>)
    ensures r.Some? ==> tid in r.value.nodes && g.nodes.Keys <= r.value.nodes.Keys && Extends(g, r.value)
  {
    ApplyEffects(Touch(g, tid, PlainTrigger(tid)), k, tid, effs)
  }

  /** The third or fourth loop keeps a graph well formed. */
  lemma {:induction false} ApplyTableWellFormed(k: Kind, g: Graph, tes: seq<(string, seq<Effect>)>)
    requires ApplyTable(k, g, tes).Some? && WellFormed(g) && TableFits(tes)
    ensures WellFormed(ApplyTable(k, g, tes).value)
    decreases |tes|
  {
    if tes != [] {
      var n := |tes| - 1;
      assert TableFits(tes[..n]) by {
        forall i | 0 <= i < n ensures EffectsFit(tes[..n][i].1, tes[..n][i].0) {
          assert tes[..n][i] == tes[i];
        }
      }
      ApplyTableWellFormed(k, g, tes[..n]);
      var g1 := ApplyTable(k, g, tes[..n]).value;
      assert EffectsFit(tes[n].1, tes[n].0);
      ApplyEffectsWellFormed(Touch(g1, tes[n].0, PlainTrigger(tes[n].0)), k, tes[n].0, tes[n].1);
    }
  }

  /** The third or fourth loop of the builder. */
  function AddTable(k: Kind, g: Graph, table: seq<(string, Json)>, d: Dicts): (r: Option<Graph>)
    ensures r.Some? ==> Extends(g, r.value)
    ensures r.Some? ==> forall i :: 0 <= i < |table| ==> table[i].0 in r.value.nodes
  {
    match TableEffects(k, table, d)
    case None => None
    case Some(tes) =>
      var r := ApplyTable(k, g, tes);
      if r.Some? then ApplyTableKeys(k, g, tes); r else r
  }

  /** The third or fourth loop keeps a graph well formed. */
  lemma {:induction false} AddTableWellFormed(k: Kind, g: Graph, table: seq<(string, Json)>, d: Dicts)
    requires AddTable(k, g, table, d).Some? && WellFormed(g)
    ensures WellFormed(AddTable(k, g, table, d).value)
  {
    TableEffectsFit(k, table, d);
    ApplyTableWellFormed(k, g, TableEffects(k, table, d).value);
  }

  // ------------------------------------------------------------ tooltips

  /** How many summary lines a tooltip lists per section. */
  const SummaryCap: nat := 10

  function Shown(n: nat): nat {
    if n < SummaryCap then n else SummaryCap
  }

  function Bullets(xs: seq<string>): seq<string> {
    seq(|xs|, i requires 0 <= i < |xs| => "• " + xs[i])
  }

  /** One tooltip section: nothing for no lines; else a heading, the first
      ten lines as bullets and, when there are more, a count of the rest. */
  function Section(head: string, xs: seq<string>): (r: seq<string>)
    ensures xs == [] <==> r == []
    ensures xs != [] ==> |r| == 1 + Shown(|xs|) + (if |xs| > SummaryCap then 1 else 0)
    ensures xs != [] ==> r[0] == "<hr><b>" + head + "</b>"
    ensures forall i :: 0 <= i < Shown(|xs|) ==> r[1 + i] == "• " + xs[i]
    ensures |xs| > SummaryCap ==> r[|r| - 1] == "…(+" + IntToString(|xs| - SummaryCap) + " more)"
  {
    if xs == [] then []
    else
      ["<hr><b>" + head + "</b>"] + Bullets(xs[..Shown(|xs|)]) +
      (if |xs| > SummaryCap then ["…(+" + IntToString(|xs| - SummaryCap) + " more)"] else [])
  }

  /** The tooltip of a trigger node: its title, its events, its actions. */
  function FinalTitle(n: Node): (r: string)
    ensures StartsWith(r, n.title)
  {
    var s := if n.sums.Some? then n.sums.value else Sums([], []);
    var lines := [n.title] + Section("Events", s.events) + Section("Actions", s.actions);
    JoinStartsWith(lines, "<br>");
    Join(lines, "<br>")
  }

  /** A trigger node gets its tooltip and loses its summary lists; other
      nodes are kept. */
  function FinalNode(n: Node): (r: Node)
    ensures n.kind != JStr("trigger") ==> r == n
    ensures n.kind == JStr("trigger") ==> r == n.(title := FinalTitle(n), sums := None)
  {
    if n.kind == JStr("trigger") then n.(title := FinalTitle(n), sums := None) else n
  }

  /** The last loop: every node finalised. */
  function Finalize(g: Graph): (r: Graph)
    ensures r.edges == g.edges && r.nodes.Keys == g.nodes.Keys
    ensures forall id :: id in g.nodes ==> r.nodes[id] == FinalNode(g.nodes[id])
  {
    g.(nodes := map id | id in g.nodes :: FinalNode(g.nodes[id]))
  }

  /** Finalising a well-formed graph leaves no summary list behind, keeps
      every node's kind and caption, and puts each trigger's own title first
      in its tooltip. */
  lemma {:induction false} FinalizeClears(g: Graph)
    requires WellFormed(g)
    ensures WellFormed(Finalize(g))
    ensures forall id :: id in g.nodes ==>
      Finalize(g).nodes[id].sums == None &&
      Finalize(g).nodes[id].kind == g.nodes[id].kind &&
      Finalize(g).nodes[id].caption == g.nodes[id].caption &&
      StartsWith(Finalize(g).nodes[id].title, g.nodes[id].title)
  {
    var r := Finalize(g);
    forall id | id in g.nodes
      ensures r.nodes[id].sums == None && r.nodes[id].kind == g.nodes[id].kind
      ensures r.nodes[id].caption == g.nodes[id].caption
      ensures StartsWith(r.nodes[id].title, g.nodes[id].title)
    {
      var n := g.nodes[id];
      if n.kind != JStr("trigger") {
        assert n.sums == None;
        assert n.title[..|n.title|] == n.title;
      }
    }
  }

  // ------------------------------------------------------------ build_graph

  /** `build_graph`: trigger nodes, links, actions, events, tooltips. */
  function Build(ts: seq<(string, Json)>, acts: seq<(string, Json)>, evs: seq<(string, Json)>, d: Dicts)
    : (r: Option<Graph>)
    ensures r.Some? ==> AllDicts(ts) && WellFormed(r.value)
    ensures r.Some? ==> forall id :: id in r.value.nodes ==> r.value.nodes[id].sums == None
  {
    match AddTriggers(ts)
    case None => None
    case Some(g1) =>
      var g2 := AddLinks(g1, Ids(ts), LinkIds(ts));
      match AddTable(Actions, g2, acts, d)
      case None => None
      case Some(g3) =>
        match AddTable(Events, g3, evs, d)
        case None => None
        case Some(g4) =>
          AddTableWellFormed(Actions, g2, acts, d);
          AddTableWellFormed(Events, g3, evs, d);
          FinalizeClears(g4);
          Some(Finalize(g4))
  }

  /** Every key of the trigger, action and event tables has a node, and
      every trigger of the trigger table keeps the kind `trigger`. */
  lemma {:induction false} BuildNodes(ts: seq<(string, Json)>, acts: seq<(string, Json)>,
                                      evs: seq<(string, Json)>, d: Dicts)
    requires Build(ts, acts, evs, d).Some?
    ensures var g := Build(ts, acts, evs, d).value;
      (forall i :: 0 <= i < |ts| ==> ts[i].0 in g.nodes && g.nodes[ts[i].0].kind == JStr("trigger")) &&
      (forall i :: 0 <= i < |acts| ==> acts[i].0 in g.nodes) &&
      (forall i :: 0 <= i < |evs| ==> evs[i].0 in g.nodes)
  {
    var g1 := AddTriggers(ts).value;
    var g2 := AddLinks(g1, Ids(ts), LinkIds(ts));
    var g3 := AddTable(Actions, g2, acts, d).value;
    var g4 := AddTable(Events, g3, evs, d).value;
    KeptThrough(ts, g1, g2, g3, g4);
    FinalizeClears(g4);
    forall i | 0 <= i < |acts| ensures acts[i].0 in g4.nodes {
      assert acts[i].0 in g3.nodes;
    }
  }

  /** A node of the first loop is still there after the later loops, with
      its kind and caption. */
  lemma {:induction false} KeptThrough(ts: seq<(string, Json)>, g1: Graph, g2: Graph, g3: Graph, g4: Graph)
    requires AddTriggers(ts) == Some(g1) && KeepsNodes(g1, g2) && Extends(g2, g3) && Extends(g3, g4)
    ensures forall i :: 0 <= i < |ts| ==>
      ts[i].0 in g4.nodes && g4.nodes[ts[i].0].kind == JStr("trigger") &&
      g4.nodes[ts[i].0].caption == g1.nodes[ts[i].0].caption
  {
    forall i | 0 <= i < |ts|
      ensures ts[i].0 in g4.nodes && g4.nodes[ts[i].0].kind == JStr("trigger")
      ensures g4.nodes[ts[i].0].caption == g1.nodes[ts[i].0].caption
    {
      var id := ts[i].0;
      assert id in g1.nodes;
      assert SameButSums(g2.nodes[id], g3.nodes[id]) && SameButSums(g3.nodes[id], g4.nodes[id]);
    }
  }

  /** Each trigger of a table with distinct ids is drawn with its own
      caption. */
  lemma {:induction false} BuildCaptions(ts: seq<(string, Json)>, acts: seq<(string, Json)>,
                                         evs: seq<(string, Json)>, d: Dicts)
    requires Build(ts, acts, evs, d).Some? && DistinctKeys(ts)
    ensures AllDicts(ts)
    ensures forall i :: 0 <= i < |ts| ==>
      Build(ts, acts, evs, d).value.nodes[ts[i].0].caption == TriggerNodes(ts)[i].1.caption
  {
    var g1 := AddTriggers(ts).value;
    var g2 := AddLinks(g1, Ids(ts), LinkIds(ts));
    var g3 := AddTable(Actions, g2, acts, d).value;
    var g4 := AddTable(Events, g3, evs, d).value;
    TriggerNodesOfTable(ts);
    KeptThrough(ts, g1, g2, g3, g4);
    FinalizeClears(g4);
  }

  /** With distinct trigger ids, the link loop draws the dotted `linked`
      edge into every trigger that names a linked trigger. */
  lemma {:induction false} BuildLinks(ts: seq<(string, Json)>)
    requires AllDicts(ts) && DistinctKeys(ts)
    ensures var g2 := AddLinks(AddTriggers(ts).value, Ids(ts), LinkIds(ts));
      forall i :: 0 <= i < |ts| && LinkIds(ts)[i].Some? ==>
        (LinkIds(ts)[i].value, ts[i].0) in g2.edges &&
        g2.edges[(LinkIds(ts)[i].value, ts[i].0)] == Edge(JStr("linked"), JStr("dot"))
  {
    LinksDrawn(AddTriggers(ts).value, Ids(ts), LinkIds(ts));
  }

  // ------------------------------------------------------------ main's passes

  /** The pass after the build: every edge label through `canon_label`
      again. */
  function Recanon(edges: map<(string, string), Edge>): map<(string, string), Edge>
    requires forall e :: e in edges ==> !Truthy(edges[e].caption) || Hashable(edges[e].caption)
  {
    map e | e in edges :: Edge(CanonLabel(edges[e].caption), edges[e].style)
  }

  /** On a graph the builder made, the second canonicalisation changes
      nothing. */
  lemma {:induction false} RecanonIdentity(g: Graph)
    requires WellFormed(g)
    ensures Recanon(g.edges) == g.edges
  {
    forall e | e in g.edges ensures Recanon(g.edges)[e] == g.edges[e] {
      assert CanonFixed(g.edges[e].caption);
    }
  }

  /** So the pass after `build_graph` never changes its result. */
  lemma {:induction false} BuildRecanonIdentity(ts: seq<(string, Json)>, acts: seq<(string, Json)>,
                                                evs: seq<(string, Json)>, d: Dicts)
    requires Build(ts, acts, evs, d).Some?
    ensures Recanon(Build(ts, acts, evs, d).value.edges) == Build(ts, acts, evs, d).value.edges
  {
    RecanonIdentity(Build(ts, acts, evs, d).value);
  }
}
