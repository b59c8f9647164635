/** The visualizer's label and value formatting: the canonical edge label,
    the short node caption, id zero-padding, waypoint letters, and the
    one-line summaries of an action or an event that trigger tooltips list. */
module Format {
  import opened Wrappers
  import opened Text
  import opened PyValue

  // ------------------------------------------------------------ canon_label

  /** A value usable as a dict key (lists and dicts are unhashable). */
  predicate Hashable(v: Json) {
    !v.JList? && !v.JObj?
  }

  /** No alias left: neither `set_local` nor `clear_local`. */
  predicate IsCanonical(lbl: Json) {
    lbl != JStr("set_local") && lbl != JStr("clear_local")
  }

  /** `canon_label`: a falsy label is returned as is; otherwise the alias
      table maps `set_local` and `enable_local` to `enable_local` and
      `clear_local` to `disable_local`, and every other label is kept. */
  function CanonLabel(lbl: Json): (r: Json)
    requires !Truthy(lbl) || Hashable(lbl)
    ensures lbl == JStr("set_local") ==> r == JStr("enable_local")
    ensures lbl == JStr("clear_local") ==> r == JStr("disable_local")
    ensures IsCanonical(lbl) ==> r == lbl
    ensures IsCanonical(r)
  {
    if !Truthy(lbl) then lbl
    else if lbl == JStr("set_local") || lbl == JStr("enable_local") then JStr("enable_local")
    else if lbl == JStr("clear_local") then JStr("disable_local")
    else lbl
  }

  /** Canonicalising twice is canonicalising once. */
  lemma {:induction false} CanonLabelIdempotent(lbl: Json)
    requires !Truthy(lbl) || Hashable(lbl)
    ensures CanonLabel(CanonLabel(lbl)) == CanonLabel(lbl)
  {
  }

  // ------------------------------------------------------------ _short

  /** The width `_short` cuts a node caption to. */
  const ShortWidth: nat := 22

  /** `_short`: empty for a falsy value, else `str(s)`, cut to 22 characters
      with an ellipsis appended when it is longer. */
  function Short(s: Json): (r: string)
    ensures !Truthy(s) ==> r == ""
    ensures |r| <= ShortWidth + 1
    ensures Truthy(s) && |Str(s)| <= ShortWidth ==> r == Str(s)
    ensures Truthy(s) && |Str(s)| > ShortWidth ==>
      |r| == ShortWidth + 1 && StartsWith(Str(s), r[..ShortWidth]) && r[ShortWidth] == '…'
  {
    if !Truthy(s) then ""
    else
      var t := Str(s);
      if |t| <= ShortWidth then t else t[..ShortWidth] + "…"
  }

  // ------------------------------------------------------------ _should_pad

  /** `PAD_KEYS`: the field names whose integer values are zero-padded ids. */
  const PadKeys: set<string> :=
    {"trigger_id", "trigger", "team_id", "team", "taskforce_id", "taskforce", "script_id", "script"}

  /** `sub in s` for at least one of `subs`. */
  predicate ContainsAny(s: string, subs: seq<string>)
    decreases |subs|
  {
    |subs| > 0 && (Contains(s, subs[0]) || ContainsAny(s, subs[1..]))
  }

  /** `_should_pad`: a truthy key whose lower-cased text is a pad key, ends in
      `_trigger`, or ends in `_id` and mentions a trigger, team, taskforce or
      script. */
  predicate ShouldPad(key: Json) {
    Truthy(key) &&
    var k := Lower(Str(key));
    k in PadKeys || EndsWith(k, "_trigger") ||
    (EndsWith(k, "_id") && ContainsAny(k, ["trigger", "team", "taskforce", "script"]))
  }

  /** Every pad key pads, in any letter case. */
  lemma {:induction false} PadKeysPad(s: string)
    requires Lower(s) in PadKeys
    ensures ShouldPad(JStr(s))
  {
    assert |Lower(s)| == |s| && Lower(s) != [];
  }

  /** The key test ignores letter case. */
  lemma {:induction false} ShouldPadIgnoresCase(s: string)
    ensures ShouldPad(JStr(s)) == ShouldPad(JStr(Lower(s)))
  {
    LowerTwice(s);
  }

  lemma {:induction false} LowerTwice(s: string)
    ensures Lower(Lower(s)) == Lower(s)
  {
    forall i | 0 <= i < |s| ensures Lower(Lower(s))[i] == Lower(s)[i] {
      var c := s[i];
      assert Lower(s)[i] == LowerChar(c);
      if IsUpperLetter(c) {
        assert IsLowerLetter(LowerChar(c));
      }
    }
  }

  // ------------------------------------------------------------ zero-padding

  /** The largest integer `_fmt_val` still pads to 8 digits. */
  const MaxPadded: int := 99_999_999

  /** `_fmt_val`: `None` and `""` show as "0"; an `isinstance(v, int)` value
      under a pad key within 0..99,999,999 shows as `str(v).zfill(8)`; anything
      else as `str(v)`. */
  function FmtVal(v: Json, key: Json): (r: string)
    ensures v == JNull || v == JStr("") ==> r == "0"
  {
    if v == JNull || v == JStr("") then "0"
    else if IsPyInt(v) && ShouldPad(key) && 0 <= IntValue(v) <= MaxPadded then ZFill(Str(v), 8)
    else Str(v)
  }

  /** A padded id reads back as the same integer, in exactly 8 characters. */
  lemma {:induction false} FmtValPadsIds(v: int, key: Json)
    requires ShouldPad(key) && 0 <= v <= MaxPadded
    ensures |FmtVal(JInt(v), key)| == 8
    ensures ParseInt(FmtVal(JInt(v), key)) == Some(v)
  {
    ZFillRoundTrip(v, 8);
    PaddedLength(v);
  }

  /** The text of an id in 0..99,999,999 zero-fills to exactly 8 characters. */
  lemma {:induction false} PaddedLength(v: int)
    requires 0 <= v <= MaxPadded
    ensures |ZFill(IntToString(v), 8)| == 8
  {
    NatToStringLength(v, 8);
    assert Pow10(8) == 100_000_000 by {
      assert Pow10(2) == 100;
      assert Pow10(4) == 10_000 by { assert Pow10(4) == 100 * Pow10(2); }
      assert Pow10(8) == 10_000 * Pow10(4) by {
        assert Pow10(8) == 10 * Pow10(7) && Pow10(7) == 10 * Pow10(6);
        assert Pow10(6) == 10 * Pow10(5) && Pow10(5) == 10 * Pow10(4);
      }
    }
  }

  /** Since a boolean is an `int` to Python, `True` under a pad key is
      padded as its text: "0000True". */
  lemma {:induction false} FmtValPadsBooleanText()
    ensures FmtVal(JBool(true), JStr("trigger_id")) == "0000True"
  {
    assert Lower("trigger_id") == "trigger_id";
    assert ShouldPad(JStr("trigger_id"));
    assert Zeros(4) == "0000";
  }

  /** Zero-filling the text of any integer to any width reads back as it. */
  lemma {:induction false} ZFillRoundTrip(i: int, width: nat)
    ensures ParseInt(ZFill(IntToString(i), width)) == Some(i)
  {
    var s := IntToString(i);
    if |s| >= width {
      ParseIntOfIntToString(i);
    } else {
      var k := width - |s|;
      var n: nat := if i < 0 then -i else i;
      var t := Zeros(k) + NatToString(n);
      ZeroFilledDigits(n, k);
      ParseDigits(t);
      if i < 0 {
        assert s[0] == '-' && s[1..] == NatToString(n);
        assert ZFill(s, width) == "-" + t;
      } else {
        assert ZFill(s, width) == t;
      }
    }
  }

  lemma {:induction false} ZeroFilledDigits(n: nat, k: nat)
    ensures IsDigits(Zeros(k) + NatToString(n))
    ensures DigitsValue(Zeros(k) + NatToString(n)) == n
  {
    var t := Zeros(k) + NatToString(n);
    assert forall j :: 0 <= j < |t| ==> IsDigit(t[j]);
    DigitsValueLeadingZeros(k, NatToString(n));
    DigitsValueOfNatToString(n);
  }

  /** A run of digits, signed or not, parses to its value. */
  lemma {:induction false} ParseDigits(t: string)
    requires IsDigits(t)
    ensures ParseInt(t) == Some(DigitsValue(t))
    ensures ParseInt("-" + t) == Some(-(DigitsValue(t) as int))
  {
    var z := "-" + t;
    assert SignLen(t) == 0 && IsIntLike(t);
    DigitsRangeValue(t, 0, |t|);
    assert t[0..|t|] == t;
    assert SignLen(z) == 1 && IsIntLike(z);
    DigitsRangeValue(z, 1, |z|);
    assert z[1..|z|] == t;
  }

  /** `_pad8`: `f"{int(n):08d}"`, or `str(n)` when `int(n)` raises. */
  function Pad8(n: Json): (r: string)
    ensures PyInt(n).None? ==> r == Str(n)
  {
    match PyInt(n)
    case Some(i) => ZFill(IntToString(i), 8)
    case None => Str(n)
  }

  /** What `_pad8` renders reads back as `int(n)`, and is 8 characters for
      ids in 0..99,999,999. */
  lemma {:induction false} Pad8RoundTrip(n: Json)
    requires PyInt(n).Some?
    ensures ParseInt(Pad8(n)) == PyInt(n)
    ensures 0 <= PyInt(n).value <= MaxPadded ==> |Pad8(n)| == 8
  {
    var i := PyInt(n).value;
    assert Pad8(n) == ZFill(IntToString(i), 8);
    ZFillRoundTrip(i, 8);
    if 0 <= i <= MaxPadded {
      PaddedLength(i);
    }
  }

  // ------------------------------------------------------------ waypoints

  function LetterIndex(c: char): int {
    c as int - 'A' as int
  }

  /** `_letters_to_waypoint`: `int(s)` when that succeeds; a non-string is
      returned as is; otherwise the stripped, upper-cased text, when it is
      alphabetic, maps one letter X to X and two letters XY to 26 + 26·X + Y
      (A = 0); anything else is returned unchanged. */
  function LettersToWaypoint(s: Json): (r: Json)
    ensures PyInt(s).Some? ==> r == JInt(PyInt(s).value)
    ensures !s.JStr? && PyInt(s).None? ==> r == s
  {
    match PyInt(s)
    case Some(i) => JInt(i)
    case None =>
      if !s.JStr? then s
      else
        var su := Upper(Strip(s.s));
        if !IsAlpha(su) then s
        else if |su| == 1 then JInt(LetterIndex(su[0]))
        else if |su| == 2 then JInt(26 + 26 * LetterIndex(su[0]) + LetterIndex(su[1]))
        else s
  }

  /** One or two upper-case letters: a waypoint label. */
  predicate IsWaypointLabel(s: string) {
    1 <= |s| <= 2 && forall i :: 0 <= i < |s| ==> IsUpperLetter(s[i])
  }

  /** The label of waypoint `n`: A..Z for 0..25, then AA, AB, .. ZZ for 26..701. */
  function WaypointLabel(n: nat): (r: string)
    requires n < 702
    ensures IsWaypointLabel(r)
    ensures |r| == 1 <==> n < 26
  {
    if n < 26 then [('A' as int + n) as char]
    else [('A' as int + (n - 26) / 26) as char, ('A' as int + (n - 26) % 26) as char]
  }

  lemma {:induction false} UpperOfLabel(s: string)
    requires IsWaypointLabel(s)
    ensures Strip(s) == s && Upper(s) == s && IsAlpha(s)
    ensures PyInt(JStr(s)) == None
  {
    StripKeepsSpaceFree(s);
    NotIntLikeStripped(s);
  }

  /** A label maps to the waypoint it names. */
  lemma {:induction false} WaypointOfLabel(n: nat)
    requires n < 702
    ensures LettersToWaypoint(JStr(WaypointLabel(n))) == JInt(n)
  {
    UpperOfLabel(WaypointLabel(n));
  }

  /** Every label maps to a waypoint in 0..701 whose label it is; one-letter
      labels to 0..25 and two-letter labels to 26..701. */
  lemma {:induction false} LabelOfWaypoint(s: string)
    requires IsWaypointLabel(s)
    ensures LettersToWaypoint(JStr(s)).JInt?
    ensures 0 <= LettersToWaypoint(JStr(s)).i < 702
    ensures (LettersToWaypoint(JStr(s)).i < 26) <==> |s| == 1
    ensures WaypointLabel(LettersToWaypoint(JStr(s)).i) == s
  {
    UpperOfLabel(s);
    if |s| == 2 {
      var a := LetterIndex(s[0]);
      var b := LetterIndex(s[1]);
      var n := 26 + 26 * a + b;
      assert (n - 26) / 26 == a && (n - 26) % 26 == b;
      assert WaypointLabel(n) == [s[0], s[1]] == s;
    } else {
      assert WaypointLabel(LetterIndex(s[0])) == [s[0]] == s;
    }
  }

  /** Distinct labels name distinct waypoints. */
  lemma {:induction false} WaypointLabelsDistinct(s: string, t: string)
    requires IsWaypointLabel(s) && IsWaypointLabel(t)
    requires LettersToWaypoint(JStr(s)) == LettersToWaypoint(JStr(t))
    ensures s == t
  {
    LabelOfWaypoint(s);
    LabelOfWaypoint(t);
  }

  /** `str.isupper()` on ASCII text: some letter, and no lower-case letter. */
  predicate IsUpperText(s: string) {
    (exists i :: 0 <= i < |s| && IsLetter(s[i])) &&
    forall i :: 0 <= i < |s| ==> !IsLowerLetter(s[i])
  }

  /** The older `_letters_to_waypoint`: an upper-case alphabetic string of one
      letter maps to X and of two letters to 26·X + Y; anything else goes
      through `int(s)`, and is returned unchanged when that raises. */
  function LegacyLettersToWaypoint(s: Json): (r: Json)
    ensures PyInt(s).Some? ==> r == JInt(PyInt(s).value)
  {
    if s.JStr? && IsAlpha(s.s) && IsUpperText(s.s) && |s.s| == 1 then JInt(LetterIndex(s.s[0]))
    else if s.JStr? && IsAlpha(s.s) && IsUpperText(s.s) && |s.s| == 2 then
      JInt(LetterIndex(s.s[0]) * 26 + LetterIndex(s.s[1]))
    else
      match PyInt(s)
      case Some(i) => JInt(i)
      case None => s
  }

  /** In the older mapping "A" and "AA" both name waypoint 0. */
  lemma {:induction false} LegacyAAndAACollide()
    ensures LegacyLettersToWaypoint(JStr("A")) == LegacyLettersToWaypoint(JStr("AA")) == JInt(0)
  {
    assert IsLetter("A"[0]);
    assert IsLetter("AA"[0]) && IsLetter("AA"[1]);
  }

  /** In the older mapping "AB" and "B" both name waypoint 1. */
  lemma {:induction false} LegacyBAndABCollide()
    ensures LegacyLettersToWaypoint(JStr("B")) == LegacyLettersToWaypoint(JStr("AB")) == JInt(1)
  {
    assert IsLetter("B"[0]) && IsAlpha("B") && IsUpperText("B");
    assert IsLetter("AB"[0]) && IsLetter("AB"[1]) && IsAlpha("AB") && IsUpperText("AB");
    assert LetterIndex('A') == 0 && LetterIndex('B') == 1;
  }

  /** The older mapping leaves lower-case letters alone; the newer one
      upper-cases them first. */
  lemma {:induction false} LowerCaseLetters()
    ensures LegacyLettersToWaypoint(JStr("a")) == JStr("a")
    ensures LettersToWaypoint(JStr("a")) == JInt(0)
  {
    assert IsLowerLetter("a"[0]);
    NotIntLikeStripped("a");
    assert Strip("a") == "a" by { StripKeepsSpaceFree("a"); }
    assert Upper("a") == "A";
    assert IsLetter("A"[0]);
  }

  /** Both mappings agree on integers and on single upper-case letters. */
  lemma {:induction false} WaypointMappingsAgree(s: Json)
    requires PyInt(s).Some? || (s.JStr? && |s.s| == 1 && IsUpperLetter(s.s[0]))
    ensures LegacyLettersToWaypoint(s) == LettersToWaypoint(s)
  {
    if PyInt(s).None? {
      assert IsWaypointLabel(s.s);
      UpperOfLabel(s.s);
      assert IsLetter(s.s[0]);
    }
  }

  // ------------------------------------------------------------ typed values

  /** A `type_hint`/`key_name` argument: `(x or "").lower()` needs a string. */
  predicate TextLike(x: Json) {
    !Truthy(x) || x.JStr?
  }

  function TextOr(x: Json): string
    requires TextLike(x)
  {
    if Truthy(x) then x.s else ""
  }

  const IdHints: set<string> := {"trigger_id", "teamtype_id", "taskforce_id", "script_id"}
  const TextHints: set<string> :=
    {"techno_id", "building_type", "csf_label", "sound_id", "speech_id", "eva_label", "house_id"}
  const NumericWords: seq<string> :=
    ["second", "frame", "count", "credits", "amount", "radius", "range", "delay"]

  /** What `_fmt_val_with_type` needs to run: text arguments, and an
      integer-convertible value under a `local_id` hint. */
  predicate FmtReady(val: Json, hint: Json, key: Json) {
    TextLike(hint) && TextLike(key) &&
    (Lower(TextOr(hint)) == "local_id" ==> PyInt(val).Some?)
  }

  /** The waypoint rendering: the index when the mapping gives an integer,
      else `str(val)`. */
  function WaypointText(val: Json, legacy: bool): string {
    var wp := if legacy then LegacyLettersToWaypoint(val) else LettersToWaypoint(val);
    if IsPyInt(wp) then Str(wp) else Str(val)
  }

  /** A key naming a waypoint field. */
  predicate IsWaypointKey(k: string) {
    Contains(k, "waypoint") || EndsWith(k, "_wp") || EndsWith(k, "_waypoint")
  }

  /** `_fmt_val_with_type`: id hints pad to 8, a waypoint hint converts
      letters, text hints show `str(val)`, `local_id` shows `str(int(val))`;
      without a hint, a waypoint-like key converts letters, a numeric-sounding
      key tries `str(int(val))`, and anything else shows `str(val)`.  `legacy`
      selects the older waypoint mapping. */
  function FmtValWithType(val: Json, hint: Json, key: Json, legacy: bool): string
    requires FmtReady(val, hint, key)
  {
    var t := Lower(TextOr(hint));
    if t in IdHints then Pad8(val)
    else if t == "waypoint_id" then WaypointText(val, legacy)
    else if t in TextHints then Str(val)
    else if t == "local_id" then IntToString(PyInt(val).value)
    else KeyedText(val, Lower(TextOr(key)), legacy)
  }

  /** The rendering without a recognised hint, by the lower-cased key. */
  function KeyedText(val: Json, k: string, legacy: bool): string {
    if IsWaypointKey(k) then WaypointText(val, legacy)
    else if ContainsAny(k, NumericWords) then
      match PyInt(val)
      case Some(i) => IntToString(i)
      case None => Str(val)
    else Str(val)
  }

  /** Under a `local_id` hint the value shows as the integer it converts to. */
  lemma {:induction false} LocalIdShowsInteger(val: Json, key: Json, legacy: bool)
    requires FmtReady(val, JStr("local_id"), key)
    ensures ParseInt(FmtValWithType(val, JStr("local_id"), key, legacy)) == PyInt(val)
  {
    assert Lower("local_id") == "local_id";
    ParseIntOfIntToString(PyInt(val).value);
  }

  /** Under a waypoint hint, a waypoint's label renders as its decimal index. */
  lemma {:induction false} WaypointHintShowsIndex(n: nat, key: Json)
    requires n < 702 && TextLike(key)
    ensures FmtValWithType(JStr(WaypointLabel(n)), JStr("waypoint_id"), key, false) == IntToString(n)
  {
    WaypointOfLabel(n);
    assert Lower("waypoint_id") == "waypoint_id";
  }

  /** Under an id hint, an id renders as 8 digits that read back as it. */
  lemma {:induction false} IdHintShowsEightDigits(id: int, hint: string, key: Json, legacy: bool)
    requires Lower(hint) in IdHints && TextLike(key) && 0 <= id <= MaxPadded
    ensures |FmtValWithType(JInt(id), JStr(hint), key, legacy)| == 8
    ensures ParseInt(FmtValWithType(JInt(id), JStr(hint), key, legacy)) == Some(id)
  {
    assert |Lower(hint)| == |hint| && Lower(hint) != [];
    Pad8RoundTrip(JInt(id));
  }

  // ------------------------------------------------------------ summaries

  /** `format_action_entry` (with the older or newer waypoint mapping) or
      `format_event_entry`. */
  datatype EntryKind = ActionEntry(legacy: bool) | EventEntry

  /** The placeholder shown when nothing else is. */
  const FallbackOnEmpty: string := "params=null"

  /** The pieces shown so far and the parameter indices they show. */
  datatype Pieces = Pieces(texts: seq<string>, used: set<int>)

  /** `isinstance(p, int) and 1 <= p <= hi`, as the index it denotes. */
  function ParamIndex(p: Json, hi: int): (r: Option<int>)
    ensures r.Some? ==> 1 <= r.value <= hi
  {
    if IsPyInt(p) && 1 <= IntValue(p) <= hi then Some(IntValue(p)) else None
  }

  /** The largest index shown: 7 for actions, the parameter count for events. */
  function MaxIndex(kind: EntryKind, params: seq<Json>): int {
    match kind
    case ActionEntry(_) => 7
    case EventEntry => |params|
  }

  /** `label or f"P{p}"`. */
  function LabelOr(caption: Json, p: Json): Json {
    Or(caption, JStr("P" + Str(p)))
  }

  /** How one piece shows a parameter, given the value, the hint and the
      caption. */
  type Renderer = (Json, Json, Json) -> string

  /** The value text of one piece: `_fmt_val_with_type` for actions (no hint
      for value fields, the reference's type for references), `_fmt_val` for
      events.  Total, so that the loops can be stated over any renderer; the
      empty text for arguments `_fmt_val_with_type` rejects is never shown,
      since `MetaReady` rules them out. */
  function Render(kind: EntryKind): Renderer {
    (val: Json, hint: Json, caption: Json) =>
      match kind
      case ActionEntry(legacy) =>
        if FmtReady(val, hint, caption) then FmtValWithType(val, hint, caption, legacy) else ""
      case EventEntry => FmtVal(val, caption)
  }

  /** The index an item shows, if any: its `param` when that is valid. */
  function ItemIndex(kind: EntryKind, params: seq<Json>, item: Json): Option<int>
    requires item.JObj?
  {
    ParamIndex(Get(item, "param"), MaxIndex(kind, params))
  }

  /** An item (a value field or a reference) is a dict, and a valid index
      names an existing parameter. */
  predicate IndexReady(kind: EntryKind, params: seq<Json>, item: Json) {
    item.JObj? && (ItemIndex(kind, params, item).Some? ==> ItemIndex(kind, params, item).value <= |params|)
  }

  /** For actions, `_fmt_val_with_type` accepts what the item passes it. */
  predicate RenderReady(kind: EntryKind, params: seq<Json>, item: Json, labelKey: string, hinted: bool)
    requires IndexReady(kind, params, item)
  {
    var pi := ItemIndex(kind, params, item);
    pi.Some? && kind.ActionEntry? ==>
      FmtReady(params[pi.value - 1], if hinted then Get(item, "type") else JNull,
               LabelOr(Get(item, labelKey), Get(item, "param")))
  }

  /** The piece of a value field: `name=value`, shown whenever its index is
      valid. */
  function FieldStep(kind: EntryKind, params: seq<Json>, render: Renderer, acc: Pieces, vf: Json): (r: Pieces)
    requires IndexReady(kind, params, vf)
    ensures ItemIndex(kind, params, vf).None? ==> r == acc
    ensures ItemIndex(kind, params, vf).Some? ==>
      |r.texts| == |acc.texts| + 1 && r.texts[..|acc.texts|] == acc.texts &&
      r.used == acc.used + {ItemIndex(kind, params, vf).value}
  {
    var p := Get(vf, "param");
    var caption := LabelOr(Get(vf, "name"), p);
    match ItemIndex(kind, params, vf)
    case None => acc
    case Some(i) =>
      Pieces(acc.texts + [Str(caption) + "=" + render(params[i - 1], JNull, caption)], acc.used + {i})
  }

  /** The piece of a reference: `type=value`, shown only when its index is
      valid and not shown yet. */
  function RefStep(kind: EntryKind, params: seq<Json>, render: Renderer, acc: Pieces, rf: Json): (r: Pieces)
    requires IndexReady(kind, params, rf)
    ensures ItemIndex(kind, params, rf).None? || ItemIndex(kind, params, rf).value in acc.used ==> r == acc
    ensures ItemIndex(kind, params, rf).Some? && ItemIndex(kind, params, rf).value !in acc.used ==>
      |r.texts| == |acc.texts| + 1 && r.texts[..|acc.texts|] == acc.texts &&
      r.used == acc.used + {ItemIndex(kind, params, rf).value}
  {
    var p := Get(rf, "param");
    var caption := LabelOr(Get(rf, "type"), p);
    match ItemIndex(kind, params, rf)
    case None => acc
    case Some(i) =>
      if i in acc.used then acc
      else Pieces(acc.texts + [Str(caption) + "=" + render(params[i - 1], Get(rf, "type"), caption)], acc.used + {i})
  }

  predicate AllIndexReady(kind: EntryKind, params: seq<Json>, items: seq<Json>) {
    forall i :: 0 <= i < |items| ==> IndexReady(kind, params, items[i])
  }

  predicate AllRenderReady(kind: EntryKind, params: seq<Json>, items: seq<Json>, labelKey: string, hinted: bool)
    requires AllIndexReady(kind, params, items)
  {
    forall i :: 0 <= i < |items| ==> RenderReady(kind, params, items[i], labelKey, hinted)
  }

  lemma {:induction false} IndexReadyPrefix(kind: EntryKind, params: seq<Json>, items: seq<Json>, n: nat)
    requires AllIndexReady(kind, params, items) && n <= |items|
    ensures AllIndexReady(kind, params, items[..n])
  {
    forall i | 0 <= i < n ensures IndexReady(kind, params, items[..n][i]) {
      assert items[..n][i] == items[i];
    }
  }

  /** The value fields, left to right. */
  function FieldsFold(kind: EntryKind, params: seq<Json>, render: Renderer, vfs: seq<Json>, acc: Pieces): Pieces
    requires AllIndexReady(kind, params, vfs)
    decreases |vfs|
  {
    if vfs == [] then acc
    else
      var n := |vfs| - 1;
      IndexReadyPrefix(kind, params, vfs, n);
      FieldStep(kind, params, render, FieldsFold(kind, params, render, vfs[..n], acc), vfs[n])
  }

  /** The references, left to right. */
  function RefsFold(kind: EntryKind, params: seq<Json>, render: Renderer, refs: seq<Json>, acc: Pieces): Pieces
    requires AllIndexReady(kind, params, refs)
    decreases |refs|
  {
    if refs == [] then acc
    else
      var n := |refs| - 1;
      IndexReadyPrefix(kind, params, refs, n);
      RefStep(kind, params, render, RefsFold(kind, params, render, refs[..n], acc), refs[n])
  }

  /** Every reference the reference loop shows, starting after `acc`, passes
      `_fmt_val_with_type` what it accepts.  A reference whose index is
      invalid or already shown is skipped before its value is looked at, so
      nothing is asked of it. */
  predicate RefsReady(kind: EntryKind, params: seq<Json>, refs: seq<Json>, acc: Pieces)
    requires AllIndexReady(kind, params, refs)
    decreases |refs|
  {
    if refs == [] then true
    else
      var n := |refs| - 1;
      IndexReadyPrefix(kind, params, refs, n);
      var seen := RefsFold(kind, params, Render(kind), refs[..n], acc).used;
      var pi := ItemIndex(kind, params, refs[n]);
      RefsReady(kind, params, refs[..n], acc) &&
      (pi.Some? && pi.value !in seen ==> RenderReady(kind, params, refs[n], "type", true))
  }

  /** `meta.get(key) or []`, iterated. */
  function ListOf(meta: Json, key: string): seq<Json>
    requires meta.JObj? && Iterable(Or(Get(meta, key), JList([])))
  {
    Iter(Or(Get(meta, key), JList([])))
  }

  /** The metadata of an entry can be summarised without raising. */
  predicate MetaReady(kind: EntryKind, params: seq<Json>, meta: Json) {
    meta.JObj? &&
    Iterable(Or(Get(meta, "value_fields"), JList([]))) &&
    Iterable(Or(Get(meta, "references"), JList([]))) &&
    AllIndexReady(kind, params, ListOf(meta, "value_fields")) &&
    AllIndexReady(kind, params, ListOf(meta, "references")) &&
    AllRenderReady(kind, params, ListOf(meta, "value_fields"), "name", false) &&
    RefsReady(kind, params, ListOf(meta, "references"),
              FieldsFold(kind, params, Render(kind), ListOf(meta, "value_fields"), Pieces([], {})))
  }

  /** `dict.get(code) or {}`. */
  function MetaOf(dict: map<int, Json>, code: int): Json {
    if code in dict && Truthy(dict[code]) then dict[code] else JObj([])
  }

  /** `meta.get("name") or f"Action {code}"` (or `Event`). */
  function EntryName(kind: EntryKind, code: int, meta: Json): string
    requires meta.JObj?
  {
    var word := if kind.ActionEntry? then "Action " else "Event ";
    Str(Or(Get(meta, "name"), JStr(word + IntToString(code))))
  }

  /** Every piece: the value fields first, then the references. */
  function AllPieces(kind: EntryKind, params: seq<Json>, meta: Json): Pieces
    requires MetaReady(kind, params, meta)
  {
    var fields := FieldsFold(kind, params, Render(kind), ListOf(meta, "value_fields"), Pieces([], {}));
    RefsFold(kind, params, Render(kind), ListOf(meta, "references"), fields)
  }

  /** The summary line: `name (piece, piece, ...)`, or `name (params=null)`. */
  function EntryText(kind: EntryKind, code: int, params: seq<Json>, dict: map<int, Json>): string
    requires MetaReady(kind, params, MetaOf(dict, code))
  {
    var meta := MetaOf(dict, code);
    var pieces := AllPieces(kind, params, meta).texts;
    EntryName(kind, code, meta) + " (" + (if pieces == [] then FallbackOnEmpty else Join(pieces, ", ")) + ")"
  }

  /** The value-field loop of the formatters. */
  method ShowFields(kind: EntryKind, params: seq<Json>, render: Renderer, vfs: seq<Json>) returns (acc: Pieces)
    requires AllIndexReady(kind, params, vfs)
    ensures acc == FieldsFold(kind, params, render, vfs, Pieces([], {}))
  {
    acc := Pieces([], {});
    for i := 0 to |vfs|
      invariant AllIndexReady(kind, params, vfs[..i])
      invariant acc == FieldsFold(kind, params, render, vfs[..i], Pieces([], {}))
    {
      assert vfs[..i + 1][..i] == vfs[..i];
      IndexReadyPrefix(kind, params, vfs, i + 1);
      acc := FieldStep(kind, params, render, acc, vfs[i]);
    }
    assert vfs[..|vfs|] == vfs;
  }

  /** The reference loop of the formatters, after the value fields. */
  method ShowRefs(kind: EntryKind, params: seq<Json>, render: Renderer, refs: seq<Json>, start: Pieces)
    returns (acc: Pieces)
    requires AllIndexReady(kind, params, refs)
    ensures acc == RefsFold(kind, params, render, refs, start)
  {
    acc := start;
    for i := 0 to |refs|
      invariant AllIndexReady(kind, params, refs[..i])
      invariant acc == RefsFold(kind, params, render, refs[..i], start)
    {
      assert refs[..i + 1][..i] == refs[..i];
      IndexReadyPrefix(kind, params, refs, i + 1);
      acc := RefStep(kind, params, render, acc, refs[i]);
    }
    assert refs[..|refs|] == refs;
  }

  /** `format_action_entry` / `format_event_entry`: the value fields, then
      the references, then the summary line. */
  method FormatEntry(kind: EntryKind, code: int, params: seq<Json>, dict: map<int, Json>)
    returns (text: string)
    requires MetaReady(kind, params, MetaOf(dict, code))
    ensures text == EntryText(kind, code, params, dict)
    ensures AllPieces(kind, params, MetaOf(dict, code)).texts == [] ==>
      text == EntryName(kind, code, MetaOf(dict, code)) + " (" + FallbackOnEmpty + ")"
  {
    var meta := MetaOf(dict, code);
    var fields := ShowFields(kind, params, Render(kind), ListOf(meta, "value_fields"));
    var acc := ShowRefs(kind, params, Render(kind), ListOf(meta, "references"), fields);
    var name := EntryName(kind, code, meta);
    if acc.texts == [] {
      text := name + " (" + FallbackOnEmpty + ")";
    } else {
      text := name + " (" + Join(acc.texts, ", ") + ")";
    }
  }

  // ------------------------------------------------------------ properties

  /** References only append: the pieces before them stay in front. */
  lemma {:induction false} RefsFoldExtends(kind: EntryKind, params: seq<Json>, render: Renderer,
                                           refs: seq<Json>, acc: Pieces)
    requires AllIndexReady(kind, params, refs)
    ensures acc.texts <= RefsFold(kind, params, render, refs, acc).texts
    ensures acc.used <= RefsFold(kind, params, render, refs, acc).used
    decreases |refs|
  {
    if refs != [] {
      var n := |refs| - 1;
      IndexReadyPrefix(kind, params, refs, n);
      RefsFoldExtends(kind, params, render, refs[..n], acc);
    }
  }

  /** Each reference piece shows an index not shown before it: the pieces the
      references add are exactly as many as the indices they add. */
  lemma {:induction false} RefsShowFreshIndices(kind: EntryKind, params: seq<Json>, render: Renderer,
                                                refs: seq<Json>, acc: Pieces)
    requires AllIndexReady(kind, params, refs)
    ensures var r := RefsFold(kind, params, render, refs, acc);
      |r.texts| - |acc.texts| == |r.used - acc.used| && acc.used <= r.used
    decreases |refs|
  {
    if refs != [] {
      var n := |refs| - 1;
      IndexReadyPrefix(kind, params, refs, n);
      RefsShowFreshIndices(kind, params, render, refs[..n], acc);
      var mid := RefsFold(kind, params, render, refs[..n], acc);
      var pi := ItemIndex(kind, params, refs[n]);
      if pi.Some? && pi.value !in mid.used {
        CardAddFresh(acc.used, mid.used, pi.value);
      }
    }
  }

  lemma {:induction false} CardAddFresh(a: set<int>, b: set<int>, p: int)
    requires a <= b && p !in b
    ensures |(b + {p}) - a| == |b - a| + 1
  {
    assert (b + {p}) - a == (b - a) + {p};
  }

  /** The value-field pieces come first, and every reference piece after them
      shows an index that no value field showed. */
  lemma {:induction false} FieldsFirst(kind: EntryKind, params: seq<Json>, meta: Json)
    requires MetaReady(kind, params, meta)
    ensures var fields := FieldsFold(kind, params, Render(kind), ListOf(meta, "value_fields"), Pieces([], {}));
      var all := AllPieces(kind, params, meta);
      fields.texts <= all.texts &&
      |all.texts| - |fields.texts| == |all.used - fields.used|
  {
    var fields := FieldsFold(kind, params, Render(kind), ListOf(meta, "value_fields"), Pieces([], {}));
    RefsFoldExtends(kind, params, Render(kind), ListOf(meta, "references"), fields);
    RefsShowFreshIndices(kind, params, Render(kind), ListOf(meta, "references"), fields);
  }

  /** References whose index is invalid or already shown add no piece and
      ask nothing of their values. */
  lemma {:induction false} ShownRefsSkipped(kind: EntryKind, params: seq<Json>, render: Renderer,
                                            refs: seq<Json>, acc: Pieces)
    requires AllIndexReady(kind, params, refs)
    requires forall i :: 0 <= i < |refs| ==>
      ItemIndex(kind, params, refs[i]).None? || ItemIndex(kind, params, refs[i]).value in acc.used
    ensures RefsReady(kind, params, refs, acc)
    ensures RefsFold(kind, params, render, refs, acc) == acc
    decreases |refs|
  {
    if refs != [] {
      var n := |refs| - 1;
      IndexReadyPrefix(kind, params, refs, n);
      assert forall i :: 0 <= i < n ==> refs[..n][i] == refs[i];
      ShownRefsSkipped(kind, params, render, refs[..n], acc);
      ShownRefsSkipped(kind, params, Render(kind), refs[..n], acc);
    }
  }

  /** Metadata whose references only repeat indices the value fields show is
      ready as soon as the value fields are, whatever the references' types
      and values: the summary shows the value fields alone. */
  lemma {:induction false} RepeatedRefsReady(kind: EntryKind, params: seq<Json>, meta: Json)
    requires meta.JObj?
    requires Iterable(Or(Get(meta, "value_fields"), JList([])))
    requires Iterable(Or(Get(meta, "references"), JList([])))
    requires AllIndexReady(kind, params, ListOf(meta, "value_fields"))
    requires AllIndexReady(kind, params, ListOf(meta, "references"))
    requires AllRenderReady(kind, params, ListOf(meta, "value_fields"), "name", false)
    requires var refs := ListOf(meta, "references");
      var fields := FieldsFold(kind, params, Render(kind), ListOf(meta, "value_fields"), Pieces([], {}));
      forall i :: 0 <= i < |refs| ==>
        ItemIndex(kind, params, refs[i]).None? || ItemIndex(kind, params, refs[i]).value in fields.used
    ensures MetaReady(kind, params, meta)
    ensures AllPieces(kind, params, meta) ==
      FieldsFold(kind, params, Render(kind), ListOf(meta, "value_fields"), Pieces([], {}))
  {
    var fields := FieldsFold(kind, params, Render(kind), ListOf(meta, "value_fields"), Pieces([], {}));
    ShownRefsSkipped(kind, params, Render(kind), ListOf(meta, "references"), fields);
  }

  /** A `local_id` reference on a parameter a value field already shows is
      skipped, so a value `int()` would reject ("abc") does not stop the
      summary. */
  lemma {:induction false} LocalIdRefOnShownIndex(legacy: bool)
    ensures var vf := JObj([(JStr("param"), JInt(1)), (JStr("name"), JStr("Count"))]);
      var rf := JObj([(JStr("param"), JInt(1)), (JStr("type"), JStr("local_id"))]);
      var meta := JObj([(JStr("value_fields"), JList([vf])), (JStr("references"), JList([rf]))]);
      var params := [JStr("abc"), JInt(0), JInt(0), JInt(0), JInt(0), JInt(0), JInt(0)];
      MetaReady(ActionEntry(legacy), params, meta)
  {
    var vf := JObj([(JStr("param"), JInt(1)), (JStr("name"), JStr("Count"))]);
    var rf := JObj([(JStr("param"), JInt(1)), (JStr("type"), JStr("local_id"))]);
    var meta := JObj([(JStr("value_fields"), JList([vf])), (JStr("references"), JList([rf]))]);
    var params := [JStr("abc"), JInt(0), JInt(0), JInt(0), JInt(0), JInt(0), JInt(0)];
    var kind := ActionEntry(legacy);
    GetIs(meta.entries, "value_fields", 0);
    GetIs(meta.entries, "references", 1);
    GetIs(vf.entries, "param", 0);
    GetIs(rf.entries, "param", 0);
    GetIs(vf.entries, "name", 1);
    assert ListOf(meta, "value_fields") == [vf];
    assert ListOf(meta, "references") == [rf];
    assert ItemIndex(kind, params, vf) == Some(1);
    assert ItemIndex(kind, params, rf) == Some(1);
    assert FmtReady(JStr("abc"), JNull, JStr("Count"));
    assert [vf][..0] == [];
    assert FieldsFold(kind, params, Render(kind), [vf], Pieces([], {})).used == {1};
    RepeatedRefsReady(kind, params, meta);
  }

  /** Empty metadata is ready and shows no piece. */
  lemma {:induction false} EmptyMeta(kind: EntryKind, params: seq<Json>)
    ensures MetaReady(kind, params, JObj([]))
    ensures AllPieces(kind, params, JObj([])) == Pieces([], {})
  {
    var meta := JObj([]);
    assert Get(meta, "value_fields") == JNull && Get(meta, "references") == JNull;
    assert ListOf(meta, "value_fields") == [] && ListOf(meta, "references") == [];
  }

  /** Without metadata the summary is the default name and the placeholder. */
  lemma {:induction false} UnknownCodeSummary(kind: EntryKind, code: int, params: seq<Json>, dict: map<int, Json>)
    requires code !in dict
    ensures MetaReady(kind, params, MetaOf(dict, code))
    ensures EntryText(kind, code, params, dict) ==
      (if kind.ActionEntry? then "Action " else "Event ") + IntToString(code) + " (" + FallbackOnEmpty + ")"
  {
    assert MetaOf(dict, code) == JObj([]);
    EmptyMeta(kind, params);
    var word := if kind.ActionEntry? then "Action " else "Event ";
    assert Get(JObj([]), "name") == JNull;
    assert EntryName(kind, code, JObj([])) == word + IntToString(code);
  }
}
