/** The visualizer's entry normalisers: the action and event lists of a map
    arrive in several JSON shapes (records with `act_id`/`cond_id` and
    `p1`.., loose dicts, lists, comma-separated strings) and are reduced to a
    code and a parameter list of fixed arity: 7 for actions, 3 for events. */
module Normalize {
  import opened Wrappers
  import opened Text
  import opened PyValue

  /** Which normaliser: they differ in keys, arity and the trailing-"A" rule. */
  datatype Kind = Actions | Events

  /** A normalised entry: `{"code": code, "params": params}`. */
  datatype Entry = Entry(code: int, params: seq<Json>)

  function Arity(k: Kind): nat {
    match k
    case Actions => 7
    case Events => 3
  }

  /** The key of the container dict (`{"actions": [...]}`). */
  function ContainerKey(k: Kind): string {
    match k
    case Actions => "actions"
    case Events => "conditions"
  }

  /** The id key of the record shape. */
  function IdKey(k: Kind): string {
    match k
    case Actions => "act_id"
    case Events => "cond_id"
  }

  /** The second and third code keys of the loose shape (the first is `code`). */
  function AltCodeKeys(k: Kind): (string, string) {
    match k
    case Actions => ("action", "A1")
    case Events => ("event", "E1")
  }

  /** The prefix of the loose shape's numbered parameter keys. */
  function LooseParamPrefix(k: Kind): string {
    match k
    case Actions => "A1P"
    case Events => "E1P"
  }

  /** `[d.get(prefix + "1"), ..., d.get(prefix + str(arity))]`. */
  function NumberedParams(v: Json, prefix: string, n: nat): (r: seq<Json>)
    requires v.JObj? && n <= 9
    ensures |r| == n
  {
    seq(n, i requires 0 <= i < n => Get(v, prefix + [DigitChar(i + 1)]))
  }

  /** A dict with an id key or a `p1` key is read as a record. */
  predicate IsRecord(k: Kind, v: Json) {
    v.JObj? && (HasKey(v.entries, IdKey(k)) || HasKey(v.entries, "p1"))
  }

  /** The code of an item, or None when the item is skipped: `_to_int` of
      the id (record), of `code or action or A1` (loose dict), of the first
      element (non-empty list) or of the first comma-separated token
      (string); any other value is skipped. */
  function ItemCode(k: Kind, v: Json): Option<int> {
    match v
    case JObj(_) =>
      if IsRecord(k, v) then ToInt(Get(v, IdKey(k)))
      else
        var (k2, k3) := AltCodeKeys(k);
        ToInt(Or(Or(Get(v, "code"), Get(v, k2)), Get(v, k3)))
    case JList(xs) => if xs == [] then None else ToInt(xs[0])
    case JStr(s) => ToInt(JStr(SplitCsv(s)[0]))
    case _ => None
  }

  /** The `params` value of a loose dict, the numbered keys standing in when
      it is absent or null. */
  function LooseParams(k: Kind, v: Json): Json
    requires v.JObj?
  {
    var p := Get(v, "params");
    if p == JNull then JList(NumberedParams(v, LooseParamPrefix(k), Arity(k))) else p
  }

  /** `list(params or [])` does not raise: a truthy loose `params` value is
      a list, a dict or a string.  Only items whose code parses get that far. */
  predicate ItemReadable(k: Kind, v: Json) {
    v.JObj? && !IsRecord(k, v) && ItemCode(k, v).Some? ==>
      Iterable(Or(LooseParams(k, v), JList([])))
  }

  /** The raw parameter list of an item whose code parsed. */
  function RawParams(k: Kind, v: Json): seq<Json>
    requires ItemCode(k, v).Some? && ItemReadable(k, v)
  {
    match v
    case JObj(_) =>
      if IsRecord(k, v) then NumberedParams(v, "p", Arity(k))
      else Iter(Or(LooseParams(k, v), JList([])))
    case JList(xs) => xs[1..]
    case JStr(s) =>
      var toks := SplitCsv(s);
      seq(|toks| - 1, i requires 0 <= i < |toks| - 1 => JStr(toks[i + 1]))
  }

  /** The last parameter is a string that upper-cases to "A". */
  predicate EndsWithA(ps: seq<Json>) {
    ps != [] && ps[|ps| - 1].JStr? && Upper(ps[|ps| - 1].s) == "A"
  }

  /** Only the action normaliser drops a trailing "A" parameter. */
  function Trimmed(k: Kind, ps: seq<Json>): (r: seq<Json>)
    ensures k == Events ==> r == ps
    ensures k == Actions && EndsWithA(ps) ==> r == ps[..|ps| - 1]
    ensures k == Actions && !EndsWithA(ps) ==> r == ps
  {
    if k == Actions && EndsWithA(ps) then ps[..|ps| - 1] else ps
  }

  /** `ti if ti is not None else t` with `ti = _to_int(t)`. */
  function IntOrKeep(t: Json): (r: Json)
    ensures ToInt(t).Some? ==> r == JInt(ToInt(t).value)
    ensures ToInt(t).None? ==> r == t
  {
    match ToInt(t)
    case Some(i) => JInt(i)
    case None => t
  }

  function Converted(ps: seq<Json>): (r: seq<Json>)
    ensures |r| == |ps|
  {
    seq(|ps|, i requires 0 <= i < |ps| => IntOrKeep(ps[i]))
  }

  function ZeroPad(m: nat): (r: seq<Json>)
    ensures |r| == m
  {
    seq(m, _ => JInt(0))
  }

  /** The first `n` parameters converted, then zeros up to length `n`. */
  function Padded(ps: seq<Json>, n: nat): (r: seq<Json>)
    ensures |r| == n
    ensures forall i :: 0 <= i < n && i < |ps| ==> r[i] == IntOrKeep(ps[i])
    ensures forall i :: |ps| <= i < n ==> r[i] == JInt(0)
  {
    var m := if |ps| < n then |ps| else n;
    Converted(ps[..m]) + ZeroPad(n - m)
  }

  /** One item: skipped (None) exactly when its code does not parse; else
      the code with the trimmed parameters padded to the kind's arity. */
  function NormalizeItem(k: Kind, v: Json): (r: Option<Entry>)
    requires ItemReadable(k, v)
    ensures r.Some? <==> ItemCode(k, v).Some?
    ensures r.Some? ==> r.value.code == ItemCode(k, v).value
    ensures r.Some? ==> |r.value.params| == Arity(k)
  {
    match ItemCode(k, v)
    case None => None
    case Some(c) => Some(Entry(c, Padded(Trimmed(k, RawParams(k, v)), Arity(k))))
  }

  // ------------------------------------------------------------ the lists

  /** The list a container stands for: `acts.get("actions", [])` when it is a
      dict with that key, else itself. */
  function Inner(k: Kind, c: Json): Json {
    if c.JObj? && HasKey(c.entries, ContainerKey(k)) then Get(c, ContainerKey(k)) else c
  }

  predicate AllReadable(k: Kind, items: seq<Json>) {
    forall i :: 0 <= i < |items| ==> ItemReadable(k, items[i])
  }

  /** The normaliser runs without raising: the container is None or iterable,
      and every item is readable. */
  predicate ContainerReadable(k: Kind, c: Json) {
    c == JNull || (Iterable(Inner(k, c)) && AllReadable(k, Iter(Inner(k, c))))
  }

  function Items(k: Kind, c: Json): (r: seq<Json>)
    requires ContainerReadable(k, c)
    ensures AllReadable(k, r)
  {
    if c == JNull then [] else Iter(Inner(k, c))
  }

  /** Every item in order, the skipped ones left out. */
  function NormalizeAll(k: Kind, items: seq<Json>): (r: seq<Entry>)
    requires AllReadable(k, items)
    ensures |r| <= |items|
    ensures forall i :: 0 <= i < |r| ==> |r[i].params| == Arity(k)
    decreases |items|
  {
    if items == [] then []
    else
      var n := |items| - 1;
      ReadablePrefix(k, items, n);
      var init := NormalizeAll(k, items[..n]);
      match NormalizeItem(k, items[n])
      case None => init
      case Some(e) => init + [e]
  }

  lemma {:induction false} ReadablePrefix(k: Kind, items: seq<Json>, n: nat)
    requires AllReadable(k, items) && n <= |items|
    ensures AllReadable(k, items[..n])
  {
    forall i | 0 <= i < n ensures ItemReadable(k, items[..n][i]) {
      assert items[..n][i] == items[i];
    }
  }

  // ------------------------------------------------------------ the loops

  /** The per-item loops: drop a trailing "A" (actions only), convert the
      first `arity` parameters, then append zeros while the list is short. */
  method PadParams(k: Kind, raw: seq<Json>) returns (out: seq<Json>)
    ensures out == Padded(Trimmed(k, raw), Arity(k))
  {
    var ps := raw;
    if k == Actions && EndsWithA(ps) {
      ps := ps[..|ps| - 1];
    }
    var n := Arity(k);
    var m := if |ps| < n then |ps| else n;
    out := ConvertAll(ps[..m]);
    out := FillZeros(out, n);
  }

  /** `for t in ps[:arity]: out.append(ti if ti is not None else t)`. */
  method ConvertAll(src: seq<Json>) returns (out: seq<Json>)
    ensures out == Converted(src)
  {
    out := [];
    for j := 0 to |src|
      invariant out == Converted(src[..j])
    {
      assert src[..j + 1] == src[..j] + [src[j]];
      out := out + [IntOrKeep(src[j])];
    }
    assert src[..|src|] == src;
  }

  /** `while len(out) < arity: out.append(0)`. */
  method FillZeros(start: seq<Json>, n: nat) returns (out: seq<Json>)
    requires |start| <= n
    ensures out == start + ZeroPad(n - |start|)
  {
    out := start;
    while |out| < n
      invariant |start| <= |out| <= n
      invariant out == start + ZeroPad(|out| - |start|)
      decreases n - |out|
    {
      assert ZeroPad(|out| - |start| + 1) == ZeroPad(|out| - |start|) + [JInt(0)];
      out := out + [JInt(0)];
    }
  }

  /** The body of the generator loop for one item: skip it, or yield its
      code and padded parameters. */
  method NormalizeOne(k: Kind, v: Json) returns (e: Option<Entry>)
    requires ItemReadable(k, v)
    ensures e == NormalizeItem(k, v)
  {
    var code := ItemCode(k, v);
    if code.None? {
      return None;
    }
    var ps := PadParams(k, RawParams(k, v));
    e := Some(Entry(code.value, ps));
  }

  /** `_iter_actions_normalized` / `_iter_events_normalized`: the generator
      loop, collecting what it yields. */
  method IterNormalized(k: Kind, c: Json) returns (out: seq<Entry>)
    requires ContainerReadable(k, c)
    ensures out == NormalizeAll(k, Items(k, c))
  {
    out := NormalizeList(k, Items(k, c));
  }

  /** The generator loop over the items of the container. */
  method NormalizeList(k: Kind, items: seq<Json>) returns (out: seq<Entry>)
    requires AllReadable(k, items)
    ensures out == NormalizeAll(k, items)
  {
    out := [];
    for i := 0 to |items|
      invariant out == NormalizeAll(k, items[..i])
    {
      ReadablePrefix(k, items, i + 1);
      assert items[..i + 1][..i] == items[..i];
      var e := NormalizeOne(k, items[i]);
      if e.Some? {
        out := out + [e.value];
      }
    }
    assert items[..|items|] == items;
  }

  // ------------------------------------------------------------ properties

  /** A trailing "A" of an action's short parameter list is dropped, so its
      slot reads 0. */
  lemma {:induction false} ActionDropsTrailingA(v: Json)
    requires ItemReadable(Actions, v) && ItemCode(Actions, v).Some?
    requires EndsWithA(RawParams(Actions, v)) && |RawParams(Actions, v)| <= 7
    ensures NormalizeItem(Actions, v).value.params[|RawParams(Actions, v)| - 1] == JInt(0)
  {
  }

  /** An event keeps a trailing "A" as the string it is. */
  lemma {:induction false} EventKeepsTrailingA(v: Json)
    requires ItemReadable(Events, v) && ItemCode(Events, v).Some?
    requires EndsWithA(RawParams(Events, v)) && |RawParams(Events, v)| <= 3
    ensures NormalizeItem(Events, v).value.params[|RawParams(Events, v)| - 1] ==
      RawParams(Events, v)[|RawParams(Events, v)| - 1]
  {
    var ps := RawParams(Events, v);
    assert NormalizeItem(Events, v).value.params == Padded(ps, 3);
    LetterAIsKept(ps[|ps| - 1]);
  }

  /** A one-letter "a" or "A" is not an integer, so conversion keeps it. */
  lemma {:induction false} LetterAIsKept(t: Json)
    requires t.JStr? && Upper(t.s) == "A"
    ensures IntOrKeep(t) == t
  {
    assert |t.s| == 1;
    assert Upper(t.s)[0] == UpperChar(t.s[0]) == 'A';
    assert t.s[0] == 'a' || t.s[0] == 'A';
    NotIntLikeStripped(t.s);
  }

  /** The parser keeps an 8-digit trigger id such as "00000005" as text; the
      normaliser turns it into the integer, and zero-filling its decimal text
      to 8 gives the id back. */
  lemma {:induction false} EightDigitIdNormalized(s: string)
    requires |s| == 8 && IsDigits(s)
    ensures IntOrKeep(JStr(s)) == JInt(DigitsValue(s))
    ensures ZFill(IntToString(DigitsValue(s)), 8) == s
  {
    assert IsIntLike(s);
    IntLikeStripped(s);
    assert SignLen(s) == 0;
    DigitsRangeValue(s, 0, 8);
    assert s[0..8] == s;
    EightDigitRoundTrip(s);
  }
}
