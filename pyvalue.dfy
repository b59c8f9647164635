/** The JSON/YAML documents the visualizer and the dictionary scripts read, as
    Python sees them once loaded, and the few builtins they apply to such
    values: truthiness and `or`, `dict.get`, `isinstance(x, int)`, `str()`,
    `int()` and iteration. */
module PyValue {
  import opened Wrappers
  import opened Text

  /** A loaded document.  An object keeps its entries in insertion order;
      its keys are usually strings, but YAML may produce integer keys. */
  datatype Json =
    | JNull
    | JBool(b: bool)
    | JInt(i: int)
    | JStr(s: string)
    | JList(items: seq<Json>)
    | JObj(entries: seq<(Json, Json)>)

  /** Python truthiness: `None`, `False`, `0`, `""`, `[]` and `{}` are false. */
  predicate Truthy(v: Json) {
    match v
    case JNull => false
    case JBool(b) => b
    case JInt(i) => i != 0
    case JStr(s) => s != []
    case JList(xs) => xs != []
    case JObj(es) => es != []
  }

  /** Python's `a or b`: the first operand when it is truthy, else the second. */
  function Or(a: Json, b: Json): (r: Json)
    ensures Truthy(r) <==> Truthy(a) || Truthy(b)
  {
    if Truthy(a) then a else b
  }

  /** `isinstance(v, int)`, which holds for booleans as well. */
  predicate IsPyInt(v: Json) {
    v.JInt? || v.JBool?
  }

  /** The integer an `isinstance(v, int)` value stands for (`True` is 1). */
  function IntValue(v: Json): int
    requires IsPyInt(v)
  {
    match v
    case JBool(b) => if b then 1 else 0
    case JInt(i) => i
  }

  // ------------------------------------------------------------- objects

  /** The keys of an object, in order (what iterating a dict yields). */
  function Keys(es: seq<(Json, Json)>): (r: seq<Json>)
    ensures |r| == |es|
  {
    seq(|es|, i requires 0 <= i < |es| => es[i].0)
  }

  /** `key in d` for a string key. */
  predicate HasKey(es: seq<(Json, Json)>, key: string) {
    exists i :: 0 <= i < |es| && es[i].0 == JStr(key)
  }

  /** Position of the entry for string `key`, or `|es|` when absent. */
  function KeyIndex(es: seq<(Json, Json)>, key: string): (k: nat)
    ensures k <= |es|
    ensures k < |es| ==> es[k].0 == JStr(key)
    ensures k == |es| <==> !HasKey(es, key)
    decreases |es|
  {
    if es == [] then 0
    else if es[0].0 == JStr(key) then 0
    else
      var k := KeyIndex(es[1..], key);
      assert forall i :: 0 <= i < |es[1..]| ==> es[1..][i] == es[i + 1];
      1 + k
  }

  /** `d.get(key)` on an object: the value, or `None` when the key is absent. */
  function Get(v: Json, key: string): (r: Json)
    requires v.JObj?
    ensures !HasKey(v.entries, key) ==> r == JNull
  {
    var k := KeyIndex(v.entries, key);
    if k < |v.entries| then v.entries[k].1 else JNull
  }

  /** `d.get(key, default)`. */
  function GetOr(v: Json, key: string, default: Json): (r: Json)
    requires v.JObj?
    ensures !HasKey(v.entries, key) ==> r == default
    ensures HasKey(v.entries, key) ==> r == Get(v, key)
  {
    if HasKey(v.entries, key) then Get(v, key) else default
  }

  /** The entry at index `k` is the one `Get` returns when it carries the key
      and no earlier entry does. */
  lemma {:induction false} GetIs(es: seq<(Json, Json)>, key: string, k: nat)
    requires k < |es| && es[k].0 == JStr(key)
    requires forall i :: 0 <= i < k ==> es[i].0 != JStr(key)
    ensures Get(JObj(es), key) == es[k].1
    decreases k
  {
    if k > 0 {
      assert es[0].0 != JStr(key);
      assert forall i :: 0 <= i < k - 1 ==> es[1..][i].0 != JStr(key) by {
        forall i | 0 <= i < k - 1 ensures es[1..][i].0 != JStr(key) {
          assert es[1..][i] == es[i + 1];
        }
      }
      GetIs(es[1..], key, k - 1);
      assert Get(JObj(es[1..]), key) == es[1..][k - 1].1;
    }
  }

  /** No key occurs twice, as in any mapping a dict can hold. */
  predicate UniqueKeys(es: seq<(Json, Json)>) {
    forall i, j :: 0 <= i < j < |es| ==> es[i].0 != es[j].0
  }

  /** With unique keys, `Get` returns the value stored under the key, which is
      what a dict built from these entries holds (a dict keeps the last entry
      of a repeated key, and here the first entry is also the last). */
  lemma GetOfUniqueKeys(es: seq<(Json, Json)>, key: string, k: nat)
    requires UniqueKeys(es)
    requires k < |es| && es[k].0 == JStr(key)
    ensures Get(JObj(es), key) == es[k].1
    ensures forall j :: k < j < |es| ==> es[j].0 != JStr(key)
  {
    GetIs(es, key, k);
  }

  /** Iterable values: lists yield their items, dicts their keys, and strings
      their characters; anything else makes `for` raise `TypeError`. */
  predicate Iterable(v: Json) {
    v.JList? || v.JObj? || v.JStr?
  }

  /** `list(v)` for an iterable value. */
  function Iter(v: Json): (r: seq<Json>)
    requires Iterable(v)
    ensures v.JList? ==> r == v.items
  {
    match v
    case JList(xs) => xs
    case JObj(es) => Keys(es)
    case JStr(s) => seq(|s|, i requires 0 <= i < |s| => JStr([s[i]]))
  }

  // ------------------------------------------------------------- str()

  /** `str(v)` (also what an f-string interpolates). */
  function Str(v: Json): string
    decreases v, 1
  {
    match v
    case JStr(s) => s
    case _ => Repr(v)
  }

  /** `repr(v)`: strings are quoted; containers show their elements' reprs. */
  function Repr(v: Json): string
    decreases v, 0
  {
    match v
    case JNull => "None"
    case JBool(b) => if b then "True" else "False"
    case JInt(i) => IntToString(i)
    case JStr(s) => "'" + s + "'"
    case JList(xs) =>
      "[" + Join(seq(|xs|, i requires 0 <= i < |xs| => Repr(xs[i])), ", ") + "]"
    case JObj(es) =>
      "{" + Join(seq(|es|, i requires 0 <= i < |es| => Repr(es[i].0) + ": " + Repr(es[i].1)), ", ") + "}"
  }

  /** `type(v).__name__`. */
  function TypeName(v: Json): string {
    match v
    case JNull => "NoneType"
    case JBool(_) => "bool"
    case JInt(_) => "int"
    case JStr(_) => "str"
    case JList(_) => "list"
    case JObj(_) => "dict"
  }

  // ------------------------------------------------------------- int()

  /** `int(v)` where it succeeds: integers and booleans convert, and a string
      converts when, stripped, it is an optionally signed run of digits;
      `None`, lists and dicts raise. */
  function PyInt(v: Json): (r: Option<int>)
    ensures IsPyInt(v) ==> r == Some(IntValue(v))
    ensures v.JStr? ==> r == ParseInt(Strip(v.s))
  {
    match v
    case JBool(b) => Some(if b then 1 else 0)
    case JInt(i) => Some(i)
    case JStr(s) => ParseInt(Strip(s))
    case _ => None
  }

  /** The visualizer's `_to_int`, by kind of value: an integer itself, a
      string's stripped integer text, and nothing for a boolean (`str(True)`
      is not a number), `None`, a list or a dict. */
  function ToInt(x: Json): (r: Option<int>)
    ensures r.Some? ==> x.JInt? || x.JStr?
  {
    match x
    case JInt(i) => Some(i)
    case JStr(s) => ParseInt(Strip(s))
    case _ => None
  }

  /** `_to_int` is `int(str(x).strip())`, None when that raises. */
  lemma {:induction false} ToIntOfStr(x: Json)
    ensures ToInt(x) == ParseInt(Strip(Str(x)))
  {
    match x
    case JInt(i) =>
      IntLikeStripped(IntToString(i));
      ParseIntOfIntToString(i);
    case JStr(_) =>
    case JBool(b) =>
      var s := if b then "True" else "False";
      NotIntLikeStripped(s);
    case JNull =>
      NotIntLikeStripped("None");
    case JList(xs) =>
      var r := Repr(x);
      assert r[0] == '[';
      NotIntLikeStripped(r);
    case JObj(es) =>
      var r := Repr(x);
      assert r[0] == '{';
      NotIntLikeStripped(r);
  }

  /** A text starting with a non-blank character that is neither a sign nor a
      digit does not strip to an integer. */
  lemma {:induction false} NotIntLikeStripped(s: string)
    requires |s| > 0 && !IsSpace(s[0]) && !IsDigit(s[0]) && s[0] != '+' && s[0] != '-'
    ensures ParseInt(Strip(s)) == None
  {
    StripKeepsFirst(s);
    assert SignLen(Strip(s)) == 0 && !IsDigit(Strip(s)[0]);
  }
}
