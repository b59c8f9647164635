/** The dictionary merge scripts: several YAML dictionaries of action (or
    condition) metadata are read in order, every entry is validated and
    merged into one map where a later file's entry replaces an earlier one,
    and the merged dictionary is written out sorted by id together with a
    log of INFO, WARN and ERROR issues that decides the exit status.  The
    two scripts differ only in what `Flavor` carries. */
module DictMerge {
  import opened Wrappers
  import opened Text
  import opened PyValue
  import opened Ids

  // ------------------------------------------------------------ the two scripts

  /** Which script: the actions merger or the conditions merger. */
  datatype Flavor = ActionDicts | ConditionDicts {
    /** The top-level key holding the entries. */
    function TopKey(): string {
      if ActionDicts? then "actions" else "conditions"
    }

    /** The word used for an entry in key errors. */
    function Noun(): string {
      if ActionDicts? then "action" else "condition"
    }

    /** The highest parameter number an index may name. */
    function MaxParam(): int {
      if ActionDicts? then 7 else 3
    }

    /** The allowed numbers of parameters, as the messages spell them. */
    function LengthText(): string {
      if ActionDicts? then "7" else "2 or 3"
    }

    predicate LengthOk(n: int) {
      if ActionDicts? then n == 7 else n == 2 || n == 3
    }

    /** `ALLOWED_KEYS`: the conditions also allow `needs_string`. */
    function AllowedKeys(): set<string> {
      var common := {"name", "description", "params", "references", "context_refs",
                     "value_fields", "produces_edges", "notes"};
      if ActionDicts? then common else common + {"needs_string"}
    }

    function Notes(): string {
      if ActionDicts? then "Merged by merge_actions.py; later files override earlier ones."
      else "Merged by merge_conditions.py; later files override earlier ones."
    }
  }

  /** The severity of a logged issue (`"INFO"`, `"WARN"`, `"ERROR"`). */
  datatype Level = Info | Warn | Error

  /** What an issue reports; `MessageText` renders it as the log line does. */
  datatype Message =
    | ReadFailed(file: string, reason: string)
    | MissingTop(file: string, top: string)
    | TopNotMapping(file: string, top: string)
    | KeyNotInteger(file: string, noun: string, key: Json)
    | EntryNotMapping(file: string, noun: string, aid: Json)
    | Overridden(aid: Json, prev: string, file: string)
    | BadName(aid: Json)
    | ParamsNotList(aid: Json, lengths: string)
    | ParamsLength(aid: Json, lengths: string, got: int)
    | ParamNotString(aid: Json, index: int, typeName: string)
    | NeedsStringPresent(aid: Json)
    | NeedsStringNotBool(aid: Json)
    | UnknownKey(aid: Json, key: Json)
    | SectionNotList(aid: Json, section: string)
    | ItemNotDict(aid: Json, item: string)
    | IndexNotInt(aid: Json, field: string, hi: int, optional: bool)
    | IndexOutOfRange(aid: Json, field: string, given: Json, hi: int)
    | EmptyString(aid: Json, field: string)
    | NotString(aid: Json, item: string, field: string)

  datatype Issue = Issue(level: Level, msg: Message)

  /** The `[id] ` prefix of the per-entry messages. */
  function Tag(aid: Json): string {
    "[" + Str(aid) + "] "
  }

  /** The text of a message, as the scripts format it. */
  function MessageText(m: Message): string {
    match m
    case ReadFailed(file, reason) => "Failed to read " + file + ": " + reason
    case MissingTop(file, top) => file + ": missing top-level '" + top + "'"
    case TopNotMapping(file, top) => file + ": '" + top + "' must be a mapping"
    case KeyNotInteger(file, noun, key) => file + ": " + noun + " id '" + Str(key) + "' is not an integer key"
    case EntryNotMapping(file, noun, aid) => file + ": " + noun + " [" + Str(aid) + "] entry must be a mapping"
    case Overridden(aid, prev, file) => Tag(aid) + "overridden: " + prev + " -> " + file
    case BadName(aid) => Tag(aid) + "missing or invalid 'name'"
    case ParamsNotList(aid, lengths) => Tag(aid) + "'params' must be a list of length " + lengths
    case ParamsLength(aid, lengths, got) => Tag(aid) + "'params' must have length " + lengths + ", got " + IntToString(got)
    case ParamNotString(aid, index, typeName) =>
      Tag(aid) + "params[" + IntToString(index) + "] should be a string type label, got " + typeName
    case NeedsStringPresent(aid) => Tag(aid) + "contains 'needs_string' which should be omitted for Actions"
    case NeedsStringNotBool(aid) => Tag(aid) + "'needs_string' should be boolean when present"
    case UnknownKey(aid, key) => Tag(aid) + "unknown key '" + Str(key) + "' kept as-is"
    case SectionNotList(aid, section) => Tag(aid) + "'" + section + "' must be a list"
    case ItemNotDict(aid, item) => Tag(aid) + item + " entry must be a dict"
    case IndexNotInt(aid, field, hi, optional) =>
      Tag(aid) + field + " must be int 1.." + IntToString(hi) + (if optional then " when present" else "")
    case IndexOutOfRange(aid, field, given, hi) =>
      Tag(aid) + field + "=" + Str(given) + " out of range 1.." + IntToString(hi)
    case EmptyString(aid, field) => Tag(aid) + field + " must be non-empty string"
    case NotString(aid, item, field) => Tag(aid) + item + "." + field + " should be string if provided"
  }

  /** A log line: ` - LEVEL: text`. */
  function LogLine(issue: Issue): string {
    var level := match issue.level case Info => "INFO" case Warn => "WARN" case Error => "ERROR";
    " - " + level + ": " + MessageText(issue.msg)
  }

  /** Which severities occur in a log. */
  datatype Severities = Severities(error: bool, warn: bool, info: bool) {
    function Join(other: Severities): Severities {
      Severities(error || other.error, warn || other.warn, info || other.info)
    }
  }

  function Only(level: Level): Severities {
    Severities(level == Error, level == Warn, level == Info)
  }

  /** The severities occurring in a log. */
  function Levels(issues: seq<Issue>): (r: Severities)
    decreases |issues|
  {
    if issues == [] then Severities(false, false, false)
    else Levels(issues[..|issues| - 1]).Join(Only(issues[|issues| - 1].level))
  }

  /** A log of one issue. */
  function One(level: Level, msg: Message): (r: seq<Issue>)
    ensures Levels(r) == Only(level) && |r| == 1 && r[0] == Issue(level, msg)
  {
    var r := [Issue(level, msg)];
    assert r[..0] == [];
    r
  }

  lemma {:induction false} LevelsConcat(a: seq<Issue>, b: seq<Issue>)
    ensures Levels(a + b) == Levels(a).Join(Levels(b))
    decreases |b|
  {
    if b == [] {
      assert a + b == a;
    } else {
      var n := |b| - 1;
      LevelsConcat(a, b[..n]);
      assert (a + b)[..|a + b| - 1] == a + b[..n];
    }
  }

  // ------------------------------------------------------------ integer keys

  /** `is_intlike`: an int (or bool, which Python counts as one) or a string
      fully matching `[+-]?\d+`. */
  predicate IsIntLikeKey(x: Json) {
    x.JInt? || x.JBool? || (x.JStr? && IsIntLike(x.s))
  }

  /** `to_int`: the integer an int-like value stands for, None otherwise. */
  function ToIntKey(x: Json): (r: Option<int>)
    ensures r.Some? <==> IsIntLikeKey(x)
  {
    match x
    case JInt(i) => Some(i)
    case JBool(b) => Some(if b then 1 else 0)
    case JStr(s) => if IsIntLike(s) then ParseInt(s) else None
    case _ => None
  }

  /** `to_int` agrees with Python's `int()` wherever it succeeds. */
  lemma {:induction false} ToIntKeyIsPyInt(x: Json)
    requires IsIntLikeKey(x)
    ensures ToIntKey(x) == PyInt(x)
  {
    if x.JStr? {
      IntLikeStripped(x.s);
    }
  }

  /** The decimal text of any integer is an int-like key naming it. */
  lemma {:induction false} ToIntKeyOfIntText(i: int)
    ensures ToIntKey(JStr(IntToString(i))) == Some(i)
  {
    ParseIntOfIntToString(i);
  }

  /** The id as the scripts keep it (`aid = to_int(k)`): the key itself for
      an int or a bool, its integer for a string. */
  function Aid(k: Json): (r: Json)
    requires IsIntLikeKey(k)
    ensures IsPyInt(r) && IntValue(r) == ToIntKey(k).value
  {
    if k.JStr? then JInt(ToIntKey(k).value) else k
  }

  // ------------------------------------------------------------ field checks

  /** The object holds a non-empty string under `key`. */
  predicate NonEmptyStr(o: Json, key: string)
    requires o.JObj?
  {
    HasKey(o.entries, key) && Get(o, key).JStr? && Get(o, key).s != []
  }

  /** A parameter index naming one of the parameters `1..hi`. */
  predicate ParamOk(p: Json, hi: int) {
    match ToIntKey(p)
    case Some(n) => 1 <= n <= hi
    case None => false
  }

  /** An optional field that, when given, is a string. */
  predicate OptStr(v: Json) {
    v == JNull || v.JStr?
  }

  /** The check of a parameter index `p` named `field`: an ERROR when it is
      not int-like, another when it is outside `1..hi`. */
  function ParamIssues(aid: Json, field: string, p: Json, hi: int, optional: bool): seq<Issue> {
    if !IsIntLikeKey(p) then One(Error, IndexNotInt(aid, field, hi, optional))
    else if !(1 <= ToIntKey(p).value <= hi) then One(Error, IndexOutOfRange(aid, field, p, hi))
    else []
  }

  /** An ERROR unless the object holds a non-empty string under `key`. */
  function RequiredIssues(aid: Json, field: string, o: Json, key: string): seq<Issue>
    requires o.JObj?
  {
    if NonEmptyStr(o, key) then [] else One(Error, EmptyString(aid, field))
  }

  /** A WARN when an optional field is given but is not a string. */
  function OptionalIssues(aid: Json, item: string, field: string, v: Json): seq<Issue> {
    if OptStr(v) then [] else One(Warn, NotString(aid, item, field))
  }

  /** The check of an edge rule's `from_param`, which may be absent. */
  function FromParamIssues(f: Flavor, aid: Json, fp: Json): seq<Issue> {
    if fp == JNull then [] else ParamIssues(aid, "produces_edges.from_param", fp, f.MaxParam(), true)
  }

  /** A parameter index is logged as an ERROR exactly when it does not name
      a parameter, and never as a WARN or INFO. */
  lemma {:induction false} ParamLevels(aid: Json, field: string, p: Json, hi: int, optional: bool)
    ensures Levels(ParamIssues(aid, field, p, hi, optional)) == Severities(!ParamOk(p, hi), false, false)
  {
    if IsIntLikeKey(p) && 1 <= ToIntKey(p).value <= hi {
      assert Levels([]) == Severities(false, false, false);
    }
  }

  lemma {:induction false} RequiredLevels(aid: Json, field: string, o: Json, key: string)
    requires o.JObj?
    ensures Levels(RequiredIssues(aid, field, o, key)) == Severities(!NonEmptyStr(o, key), false, false)
  {
    if NonEmptyStr(o, key) {
      assert Levels([]) == Severities(false, false, false);
    }
  }

  lemma {:induction false} OptionalLevels(aid: Json, item: string, field: string, v: Json)
    ensures Levels(OptionalIssues(aid, item, field, v)) == Severities(false, !OptStr(v), false)
  {
    if OptStr(v) {
      assert Levels([]) == Severities(false, false, false);
    }
  }

  lemma {:induction false} FromParamLevels(f: Flavor, aid: Json, fp: Json)
    ensures Levels(FromParamIssues(f, aid, fp)) == Severities(!(fp == JNull || ParamOk(fp, f.MaxParam())), false, false)
  {
    if fp == JNull {
      assert Levels([]) == Severities(false, false, false);
    } else {
      ParamLevels(aid, "produces_edges.from_param", fp, f.MaxParam(), true);
    }
  }

  /** The severities of three logs one after the other. */
  lemma {:induction false} LevelsConcat3(a: seq<Issue>, b: seq<Issue>, c: seq<Issue>)
    ensures Levels(a + b + c) == Levels(a).Join(Levels(b)).Join(Levels(c))
  {
    LevelsConcat(a, b);
    LevelsConcat(a + b, c);
  }

  // ------------------------------------------------------------ sections

  /** The four list-valued sections of an entry. */
  datatype Section = References | ContextRefs | ValueFields | ProducesEdges {
    function Key(): string {
      match this
      case References => "references"
      case ContextRefs => "context_refs"
      case ValueFields => "value_fields"
      case ProducesEdges => "produces_edges"
    }

    /** How the messages name one item of the section. */
    function Item(): string {
      match this
      case References => "reference"
      case ContextRefs => "context_ref"
      case ValueFields => "value_field"
      case ProducesEdges => "produces_edges"
    }
  }

  /** A reference free of errors: its parameter index names a parameter of
      the entry and its type is a non-empty string. */
  predicate RefShaped(f: Flavor, r: Json)
    requires r.JObj?
  {
    ParamOk(Get(r, "param"), f.MaxParam()) && NonEmptyStr(r, "type")
  }

  /** A context reference free of errors: non-empty source and type. */
  predicate ContextShaped(r: Json)
    requires r.JObj?
  {
    NonEmptyStr(r, "source") && NonEmptyStr(r, "type")
  }

  /** A value field free of errors: a valid parameter index and a non-empty
      name. */
  predicate FieldShaped(f: Flavor, r: Json)
    requires r.JObj?
  {
    ParamOk(Get(r, "param"), f.MaxParam()) && NonEmptyStr(r, "name")
  }

  /** An edge rule free of errors: `from_param`, when given, is a valid
      parameter index. */
  predicate EdgeShaped(f: Flavor, r: Json)
    requires r.JObj?
  {
    Get(r, "from_param") == JNull || ParamOk(Get(r, "from_param"), f.MaxParam())
  }

  /** An edge rule free of warnings: `to`, `label` and `style`, where given,
      are strings. */
  predicate EdgeWarnFree(r: Json)
    requires r.JObj?
  {
    OptStr(Get(r, "to")) && OptStr(Get(r, "label")) && OptStr(Get(r, "style"))
  }

  /** An item free of errors. */
  predicate ItemShaped(f: Flavor, sec: Section, r: Json) {
    r.JObj? &&
    match sec
    case References => RefShaped(f, r)
    case ContextRefs => ContextShaped(r)
    case ValueFields => FieldShaped(f, r)
    case ProducesEdges => EdgeShaped(f, r)
  }

  /** An item free of warnings: its optional descriptive fields, where
      given, are strings. */
  predicate ItemWarnFree(sec: Section, r: Json) {
    !r.JObj? ||
    match sec
    case References => OptStr(Get(r, "role"))
    case ContextRefs => OptStr(Get(r, "role"))
    case ValueFields => OptStr(Get(r, "unit"))
    case ProducesEdges => EdgeWarnFree(r)
  }

  /** The edge fields named in `keys` are, where given, strings. */
  predicate FieldsOptStr(r: Json, keys: seq<string>)
    requires r.JObj?
    decreases |keys|
  {
    keys == [] || (FieldsOptStr(r, keys[..|keys| - 1]) && OptStr(Get(r, keys[|keys| - 1])))
  }

  /** The WARNs for the edge fields named in `keys` that are given but are
      not strings. */
  function EdgeFieldIssues(aid: Json, r: Json, keys: seq<string>): seq<Issue>
    requires r.JObj?
    decreases |keys|
  {
    if keys == [] then []
    else
      var n := |keys| - 1;
      EdgeFieldIssues(aid, r, keys[..n]) + OptionalIssues(aid, "produces_edges", keys[n], Get(r, keys[n]))
  }

  /** A WARN is among the edge field issues exactly when one of the fields
      is given but is not a string; they hold no ERROR and no INFO. */
  lemma {:induction false} EdgeFieldLevels(aid: Json, r: Json, keys: seq<string>)
    requires r.JObj?
    ensures Levels(EdgeFieldIssues(aid, r, keys)) == Severities(false, !FieldsOptStr(r, keys), false)
    decreases |keys|
  {
    if keys != [] {
      var n := |keys| - 1;
      EdgeFieldLevels(aid, r, keys[..n]);
      OptionalLevels(aid, "produces_edges", keys[n], Get(r, keys[n]));
      LevelsConcat(EdgeFieldIssues(aid, r, keys[..n]), OptionalIssues(aid, "produces_edges", keys[n], Get(r, keys[n])));
    } else {
      assert Levels([]) == Severities(false, false, false);
    }
  }

  /** Checking one more edge field appends its issues. */
  lemma {:induction false} EdgeFieldIssuesSnoc(aid: Json, r: Json, keys: seq<string>, i: nat)
    requires r.JObj? && i < |keys|
    ensures EdgeFieldIssues(aid, r, keys[..i + 1]) ==
            EdgeFieldIssues(aid, r, keys[..i]) + OptionalIssues(aid, "produces_edges", keys[i], Get(r, keys[i]))
  {
    assert keys[..i + 1][..i] == keys[..i];
  }

  /** The three fields an edge rule may describe itself with. */
  const EdgeFields: seq<string> := ["to", "label", "style"]

  lemma EdgeFieldsWarnFree(r: Json)
    requires r.JObj?
    ensures FieldsOptStr(r, EdgeFields) <==> EdgeWarnFree(r)
  {
    var ks := EdgeFields;
    var ks2, ks1: seq<string> := ["to", "label"], ["to"];
    assert ks[..2] == ks2 && ks2[..1] == ks1 && ks1[..0] == [];
    assert FieldsOptStr(r, ks) == (FieldsOptStr(r, ks2) && OptStr(Get(r, "style")));
    assert FieldsOptStr(r, ks2) == (FieldsOptStr(r, ks1) && OptStr(Get(r, "label")));
    assert FieldsOptStr(r, ks1) == OptStr(Get(r, "to"));
  }

  function RefIssues(f: Flavor, aid: Json, r: Json): seq<Issue>
    requires r.JObj?
  {
    ParamIssues(aid, "reference.param", Get(r, "param"), f.MaxParam(), false) +
    RequiredIssues(aid, "reference.type", r, "type") +
    OptionalIssues(aid, "reference", "role", Get(r, "role"))
  }

  function ContextIssues(aid: Json, r: Json): seq<Issue>
    requires r.JObj?
  {
    RequiredIssues(aid, "context_ref.source", r, "source") +
    RequiredIssues(aid, "context_ref.type", r, "type") +
    OptionalIssues(aid, "context_ref", "role", Get(r, "role"))
  }

  function FieldIssues(f: Flavor, aid: Json, r: Json): seq<Issue>
    requires r.JObj?
  {
    ParamIssues(aid, "value_field.param", Get(r, "param"), f.MaxParam(), false) +
    RequiredIssues(aid, "value_field.name", r, "name") +
    OptionalIssues(aid, "value_field", "unit", Get(r, "unit"))
  }

  function EdgeIssues(f: Flavor, aid: Json, r: Json): seq<Issue>
    requires r.JObj?
  {
    FromParamIssues(f, aid, Get(r, "from_param")) + EdgeFieldIssues(aid, r, EdgeFields)
  }

  lemma {:induction false} RefLevels(f: Flavor, aid: Json, r: Json)
    requires r.JObj?
    ensures Levels(RefIssues(f, aid, r)) == Severities(!RefShaped(f, r), !OptStr(Get(r, "role")), false)
  {
    ParamLevels(aid, "reference.param", Get(r, "param"), f.MaxParam(), false);
    RequiredLevels(aid, "reference.type", r, "type");
    OptionalLevels(aid, "reference", "role", Get(r, "role"));
    LevelsConcat3(ParamIssues(aid, "reference.param", Get(r, "param"), f.MaxParam(), false),
                  RequiredIssues(aid, "reference.type", r, "type"),
                  OptionalIssues(aid, "reference", "role", Get(r, "role")));
  }

  lemma {:induction false} ContextLevels(aid: Json, r: Json)
    requires r.JObj?
    ensures Levels(ContextIssues(aid, r)) == Severities(!ContextShaped(r), !OptStr(Get(r, "role")), false)
  {
    RequiredLevels(aid, "context_ref.source", r, "source");
    RequiredLevels(aid, "context_ref.type", r, "type");
    OptionalLevels(aid, "context_ref", "role", Get(r, "role"));
    LevelsConcat3(RequiredIssues(aid, "context_ref.source", r, "source"),
                  RequiredIssues(aid, "context_ref.type", r, "type"),
                  OptionalIssues(aid, "context_ref", "role", Get(r, "role")));
  }

  lemma {:induction false} FieldLevels(f: Flavor, aid: Json, r: Json)
    requires r.JObj?
    ensures Levels(FieldIssues(f, aid, r)) == Severities(!FieldShaped(f, r), !OptStr(Get(r, "unit")), false)
  {
    ParamLevels(aid, "value_field.param", Get(r, "param"), f.MaxParam(), false);
    RequiredLevels(aid, "value_field.name", r, "name");
    OptionalLevels(aid, "value_field", "unit", Get(r, "unit"));
    LevelsConcat3(ParamIssues(aid, "value_field.param", Get(r, "param"), f.MaxParam(), false),
                  RequiredIssues(aid, "value_field.name", r, "name"),
                  OptionalIssues(aid, "value_field", "unit", Get(r, "unit")));
  }

  lemma {:induction false} EdgeLevels(f: Flavor, aid: Json, r: Json)
    requires r.JObj?
    ensures Levels(EdgeIssues(f, aid, r)) == Severities(!EdgeShaped(f, r), !EdgeWarnFree(r), false)
  {
    EdgeFieldsWarnFree(r);
    EdgeFieldLevels(aid, r, EdgeFields);
    FromParamLevels(f, aid, Get(r, "from_param"));
    LevelsConcat(FromParamIssues(f, aid, Get(r, "from_param")), EdgeFieldIssues(aid, r, EdgeFields));
  }

  /** The issues of one item of a section. */
  function ItemIssues(f: Flavor, aid: Json, sec: Section, r: Json): seq<Issue> {
    if !r.JObj? then One(Error, ItemNotDict(aid, sec.Item()))
    else
      match sec
      case References => RefIssues(f, aid, r)
      case ContextRefs => ContextIssues(aid, r)
      case ValueFields => FieldIssues(f, aid, r)
      case ProducesEdges => EdgeIssues(f, aid, r)
  }

  /** An item is logged with an ERROR exactly when it is not well shaped,
      with a WARN exactly when it is not warning-free, and never with an
      INFO. */
  lemma {:induction false} ItemLevels(f: Flavor, aid: Json, sec: Section, r: Json)
    ensures Levels(ItemIssues(f, aid, sec, r)) == Severities(!ItemShaped(f, sec, r), !ItemWarnFree(sec, r), false)
  {
    if r.JObj? {
      match sec
      case References => RefLevels(f, aid, r);
      case ContextRefs => ContextLevels(aid, r);
      case ValueFields => FieldLevels(f, aid, r);
      case ProducesEdges => EdgeLevels(f, aid, r);
    }
  }

  /** Every item of the list is free of errors, item by item. */
  predicate AllShaped(f: Flavor, sec: Section, xs: seq<Json>)
    decreases |xs|
  {
    xs == [] || (AllShaped(f, sec, xs[..|xs| - 1]) && ItemShaped(f, sec, xs[|xs| - 1]))
  }

  /** Every item of the list is free of warnings, item by item. */
  predicate AllWarnFree(sec: Section, xs: seq<Json>)
    decreases |xs|
  {
    xs == [] || (AllWarnFree(sec, xs[..|xs| - 1]) && ItemWarnFree(sec, xs[|xs| - 1]))
  }

  lemma {:induction false} AllShapedEach(f: Flavor, sec: Section, xs: seq<Json>)
    ensures AllShaped(f, sec, xs) <==> forall i :: 0 <= i < |xs| ==> ItemShaped(f, sec, xs[i])
    decreases |xs|
  {
    if xs != [] {
      var n := |xs| - 1;
      AllShapedEach(f, sec, xs[..n]);
      assert forall i :: 0 <= i < n ==> xs[..n][i] == xs[i];
    }
  }

  lemma {:induction false} AllWarnFreeEach(sec: Section, xs: seq<Json>)
    ensures AllWarnFree(sec, xs) <==> forall i :: 0 <= i < |xs| ==> ItemWarnFree(sec, xs[i])
    decreases |xs|
  {
    if xs != [] {
      var n := |xs| - 1;
      AllWarnFreeEach(sec, xs[..n]);
      assert forall i :: 0 <= i < n ==> xs[..n][i] == xs[i];
    }
  }

  /** The issues of the items of a section, in order. */
  function ItemsIssues(f: Flavor, aid: Json, sec: Section, xs: seq<Json>): seq<Issue>
    decreases |xs|
  {
    if xs == [] then []
    else
      var n := |xs| - 1;
      ItemsIssues(f, aid, sec, xs[..n]) + ItemIssues(f, aid, sec, xs[n])
  }

  lemma {:induction false} ItemsLevels(f: Flavor, aid: Json, sec: Section, xs: seq<Json>)
    ensures Levels(ItemsIssues(f, aid, sec, xs)) == Severities(!AllShaped(f, sec, xs), !AllWarnFree(sec, xs), false)
    decreases |xs|
  {
    if xs != [] {
      var n := |xs| - 1;
      ItemsLevels(f, aid, sec, xs[..n]);
      ItemLevels(f, aid, sec, xs[n]);
      LevelsConcat(ItemsIssues(f, aid, sec, xs[..n]), ItemIssues(f, aid, sec, xs[n]));
    } else {
      assert Levels([]) == Severities(false, false, false);
    }
  }

  /** Checking one more item appends its issues. */
  lemma {:induction false} ItemsIssuesSnoc(f: Flavor, aid: Json, sec: Section, xs: seq<Json>, i: nat)
    requires i < |xs|
    ensures ItemsIssues(f, aid, sec, xs[..i + 1]) == ItemsIssues(f, aid, sec, xs[..i]) + ItemIssues(f, aid, sec, xs[i])
  {
    assert xs[..i + 1][..i] == xs[..i];
  }

  /** A section free of errors: absent, or a list of well-shaped items. */
  predicate SectionShaped(f: Flavor, sec: Section, v: Json) {
    v == JNull || (v.JList? && forall i :: 0 <= i < |v.items| ==> ItemShaped(f, sec, v.items[i]))
  }

  /** A section free of warnings. */
  predicate SectionWarnFree(sec: Section, v: Json) {
    !v.JList? || forall i :: 0 <= i < |v.items| ==> ItemWarnFree(sec, v.items[i])
  }

  /** The section as the scripts read it: `e.get(key, [])`. */
  function SectionOf(sec: Section, e: Json): Json
    requires e.JObj?
  {
    GetOr(e, sec.Key(), JList([]))
  }

  /** The issues of one section: an ERROR when it is neither absent nor a
      list, else those of its items. */
  function SectionIssues(f: Flavor, aid: Json, sec: Section, e: Json): seq<Issue>
    requires e.JObj?
  {
    var v := SectionOf(sec, e);
    if v != JNull && !v.JList? then One(Error, SectionNotList(aid, sec.Key()))
    else ItemsIssues(f, aid, sec, if v.JList? then v.items else [])
  }

  lemma {:induction false} SectionLevels(f: Flavor, aid: Json, sec: Section, e: Json)
    requires e.JObj?
    ensures Levels(SectionIssues(f, aid, sec, e)) ==
            Severities(!SectionShaped(f, sec, SectionOf(sec, e)), !SectionWarnFree(sec, SectionOf(sec, e)), false)
  {
    var v := SectionOf(sec, e);
    if v == JNull || v.JList? {
      var xs := if v.JList? then v.items else [];
      AllShapedEach(f, sec, xs);
      AllWarnFreeEach(sec, xs);
      ItemsLevels(f, aid, sec, xs);
    }
  }

  // ------------------------------------------------------------ whole entries

  /** The WARNs for parameters that are not string type labels, numbered
      from 1. */
  function ParamTypeIssues(aid: Json, ps: seq<Json>): seq<Issue>
    decreases |ps|
  {
    if ps == [] then []
    else
      var n := |ps| - 1;
      ParamTypeIssues(aid, ps[..n]) + ParamNote(aid, n + 1, ps[n])
  }

  /** Checking one more parameter appends its issues. */
  lemma {:induction false} ParamTypeIssuesSnoc(aid: Json, ps: seq<Json>, i: nat)
    requires i < |ps|
    ensures ParamTypeIssues(aid, ps[..i + 1]) == ParamTypeIssues(aid, ps[..i]) + ParamNote(aid, i + 1, ps[i])
  {
    assert ps[..i + 1][..i] == ps[..i];
  }

  /** The WARN for parameter number `index` when it is not a string. */
  function ParamNote(aid: Json, index: int, p: Json): seq<Issue> {
    if p.JStr? then [] else One(Warn, ParamNotString(aid, index, TypeName(p)))
  }

  /** Every parameter is a string type label. */
  predicate AllStrings(ps: seq<Json>) {
    forall i :: 0 <= i < |ps| ==> ps[i].JStr?
  }

  lemma {:induction false} AllStringsSnoc(ps: seq<Json>)
    requires ps != []
    ensures AllStrings(ps) <==> AllStrings(ps[..|ps| - 1]) && ps[|ps| - 1].JStr?
  {
    var n := |ps| - 1;
    assert forall i :: 0 <= i < n ==> ps[..n][i] == ps[i];
  }

  /** The parameter types are logged with a WARN exactly when one of them
      is not a string, and never with an ERROR or INFO. */
  lemma {:induction false} ParamTypeLevels(aid: Json, ps: seq<Json>)
    ensures Levels(ParamTypeIssues(aid, ps)) == Severities(false, !AllStrings(ps), false)
    decreases |ps|
  {
    if ps == [] {
      assert Levels([]) == Severities(false, false, false);
    } else {
      var n := |ps| - 1;
      var pre, last := ParamTypeIssues(aid, ps[..n]), ParamNote(aid, n + 1, ps[n]);
      ParamTypeLevels(aid, ps[..n]);
      if ps[n].JStr? {
        assert Levels(last) == Severities(false, false, false);
      }
      LevelsConcat(pre, last);
      AllStringsSnoc(ps);
    }
  }

  /** `params` is a list of one of the allowed lengths. */
  predicate ParamsShaped(f: Flavor, p: Json) {
    p.JList? && f.LengthOk(|p.items|)
  }

  /** Parameters of an allowed number are all string type labels. */
  predicate ParamsWarnFree(f: Flavor, p: Json) {
    ParamsShaped(f, p) ==> AllStrings(p.items)
  }

  /** The checks of `params`. */
  function ParamsIssues(f: Flavor, aid: Json, p: Json): seq<Issue> {
    if !p.JList? then One(Error, ParamsNotList(aid, f.LengthText()))
    else if !f.LengthOk(|p.items|) then One(Error, ParamsLength(aid, f.LengthText(), |p.items|))
    else ParamTypeIssues(aid, p.items)
  }

  lemma {:induction false} ParamsLevels(f: Flavor, aid: Json, p: Json)
    ensures Levels(ParamsIssues(f, aid, p)) == Severities(!ParamsShaped(f, p), !ParamsWarnFree(f, p), false)
  {
    if ParamsShaped(f, p) {
      ParamTypeLevels(aid, p.items);
    }
  }

  /** `needs_string` is as the script wants it: absent for actions, absent
      or a boolean for conditions. */
  predicate NeedsStringOk(f: Flavor, e: Json)
    requires e.JObj?
  {
    !HasKey(e.entries, "needs_string") || (f.ConditionDicts? && Get(e, "needs_string").JBool?)
  }

  function NeedsStringIssues(f: Flavor, aid: Json, e: Json): seq<Issue>
    requires e.JObj?
  {
    if !HasKey(e.entries, "needs_string") then []
    else if f.ActionDicts? then One(Warn, NeedsStringPresent(aid))
    else if !Get(e, "needs_string").JBool? then One(Warn, NeedsStringNotBool(aid))
    else []
  }

  lemma {:induction false} NeedsStringLevels(f: Flavor, aid: Json, e: Json)
    requires e.JObj?
    ensures Levels(NeedsStringIssues(f, aid, e)) == Severities(false, !NeedsStringOk(f, e), false)
  {
    if NeedsStringOk(f, e) {
      assert Levels([]) == Severities(false, false, false);
    }
  }

  predicate Allowed(f: Flavor, k: Json) {
    k.JStr? && k.s in f.AllowedKeys()
  }

  /** An INFO for every key outside the allowed set, in order. */
  function KeyIssues(f: Flavor, aid: Json, ks: seq<Json>): seq<Issue>
    decreases |ks|
  {
    if ks == [] then []
    else
      var n := |ks| - 1;
      KeyIssues(f, aid, ks[..n]) + KeyNote(f, aid, ks[n])
  }

  /** Checking one more key appends its issues. */
  lemma {:induction false} KeyIssuesSnoc(f: Flavor, aid: Json, ks: seq<Json>, i: nat)
    requires i < |ks|
    ensures KeyIssues(f, aid, ks[..i + 1]) == KeyIssues(f, aid, ks[..i]) + KeyNote(f, aid, ks[i])
  {
    assert ks[..i + 1][..i] == ks[..i];
  }

  /** The INFO for a key outside the allowed set. */
  function KeyNote(f: Flavor, aid: Json, k: Json): seq<Issue> {
    if Allowed(f, k) then [] else One(Info, UnknownKey(aid, k))
  }

  /** Every key is an allowed one. */
  predicate AllAllowed(f: Flavor, ks: seq<Json>) {
    forall i :: 0 <= i < |ks| ==> Allowed(f, ks[i])
  }

  lemma {:induction false} AllAllowedSnoc(f: Flavor, ks: seq<Json>)
    requires ks != []
    ensures AllAllowed(f, ks) <==> AllAllowed(f, ks[..|ks| - 1]) && Allowed(f, ks[|ks| - 1])
  {
    var n := |ks| - 1;
    assert forall i :: 0 <= i < n ==> ks[..n][i] == ks[i];
  }

  /** The keys are logged with an INFO exactly when one of them is not
      allowed, and never with an ERROR or WARN. */
  lemma {:induction false} KeyLevels(f: Flavor, aid: Json, ks: seq<Json>)
    ensures Levels(KeyIssues(f, aid, ks)) == Severities(false, false, !AllAllowed(f, ks))
    decreases |ks|
  {
    if ks == [] {
      assert Levels([]) == Severities(false, false, false);
    } else {
      var n := |ks| - 1;
      var pre, last := KeyIssues(f, aid, ks[..n]), KeyNote(f, aid, ks[n]);
      KeyLevels(f, aid, ks[..n]);
      if Allowed(f, ks[n]) {
        assert Levels(last) == Severities(false, false, false);
      }
      LevelsConcat(pre, last);
      AllAllowedSnoc(f, ks);
    }
  }

  /** The four sections are free of errors. */
  predicate SectionsShaped(f: Flavor, e: Json)
    requires e.JObj?
  {
    SectionShaped(f, References, SectionOf(References, e)) &&
    SectionShaped(f, ContextRefs, SectionOf(ContextRefs, e)) &&
    SectionShaped(f, ValueFields, SectionOf(ValueFields, e)) &&
    SectionShaped(f, ProducesEdges, SectionOf(ProducesEdges, e))
  }

  /** The four sections are free of warnings. */
  predicate SectionsWarnFree(e: Json)
    requires e.JObj?
  {
    SectionWarnFree(References, SectionOf(References, e)) &&
    SectionWarnFree(ContextRefs, SectionOf(ContextRefs, e)) &&
    SectionWarnFree(ValueFields, SectionOf(ValueFields, e)) &&
    SectionWarnFree(ProducesEdges, SectionOf(ProducesEdges, e))
  }

  /** An entry free of errors: a non-empty string name, parameters of an
      allowed number, and four sections free of errors. */
  predicate WellShaped(f: Flavor, e: Json)
    requires e.JObj?
  {
    NonEmptyStr(e, "name") && ParamsShaped(f, Get(e, "params")) && SectionsShaped(f, e)
  }

  /** An entry free of warnings. */
  predicate WarnFree(f: Flavor, e: Json)
    requires e.JObj?
  {
    ParamsWarnFree(f, Get(e, "params")) && NeedsStringOk(f, e) && SectionsWarnFree(e)
  }

  /** Every key of the entry is an allowed one. */
  predicate KnownKeys(f: Flavor, e: Json)
    requires e.JObj?
  {
    forall i :: 0 <= i < |e.entries| ==> Allowed(f, e.entries[i].0)
  }

  lemma KeysKnown(f: Flavor, e: Json)
    requires e.JObj?
    ensures KnownKeys(f, e) <==> AllAllowed(f, Keys(e.entries))
  {
    var ks := Keys(e.entries);
    assert forall i :: 0 <= i < |ks| ==> ks[i] == e.entries[i].0;
  }

  function NameIssues(aid: Json, e: Json): seq<Issue>
    requires e.JObj?
  {
    if NonEmptyStr(e, "name") then [] else One(Error, BadName(aid))
  }

  /** The checks of the name, the parameters, `needs_string` and the keys. */
  function HeadIssues(f: Flavor, aid: Json, e: Json): seq<Issue>
    requires e.JObj?
  {
    NameIssues(aid, e) + ParamsIssues(f, aid, Get(e, "params")) + NeedsStringIssues(f, aid, e) +
    KeyIssues(f, aid, Keys(e.entries))
  }

  lemma {:induction false} HeadLevels(f: Flavor, aid: Json, e: Json)
    requires e.JObj?
    ensures Levels(HeadIssues(f, aid, e)) ==
            Severities(!(NonEmptyStr(e, "name") && ParamsShaped(f, Get(e, "params"))),
                       !(ParamsWarnFree(f, Get(e, "params")) && NeedsStringOk(f, e)),
                       !KnownKeys(f, e))
  {
    var a, b := NameIssues(aid, e), ParamsIssues(f, aid, Get(e, "params"));
    var c, d := NeedsStringIssues(f, aid, e), KeyIssues(f, aid, Keys(e.entries));
    if NonEmptyStr(e, "name") {
      assert Levels(a) == Severities(false, false, false);
    }
    ParamsLevels(f, aid, Get(e, "params"));
    NeedsStringLevels(f, aid, e);
    KeyLevels(f, aid, Keys(e.entries));
    KeysKnown(f, e);
    LevelsConcat3(a, b, c);
    LevelsConcat(a + b + c, d);
  }

  /** The checks of the four sections, in order. */
  function SectionsIssues(f: Flavor, aid: Json, e: Json): seq<Issue>
    requires e.JObj?
  {
    SectionIssues(f, aid, References, e) + SectionIssues(f, aid, ContextRefs, e) +
    SectionIssues(f, aid, ValueFields, e) + SectionIssues(f, aid, ProducesEdges, e)
  }

  lemma {:induction false} SectionsLevels(f: Flavor, aid: Json, e: Json)
    requires e.JObj?
    ensures Levels(SectionsIssues(f, aid, e)) == Severities(!SectionsShaped(f, e), !SectionsWarnFree(e), false)
  {
    var a, b := SectionIssues(f, aid, References, e), SectionIssues(f, aid, ContextRefs, e);
    var c, d := SectionIssues(f, aid, ValueFields, e), SectionIssues(f, aid, ProducesEdges, e);
    SectionLevels(f, aid, References, e);
    SectionLevels(f, aid, ContextRefs, e);
    SectionLevels(f, aid, ValueFields, e);
    SectionLevels(f, aid, ProducesEdges, e);
    LevelsConcat3(a, b, c);
    LevelsConcat(a + b + c, d);
  }

  /** `validate_action` / `validate_condition`: the issues of one entry, in
      the order the script logs them. */
  function EntryIssues(f: Flavor, aid: Json, e: Json): seq<Issue>
    requires e.JObj?
  {
    HeadIssues(f, aid, e) + SectionsIssues(f, aid, e)
  }

  /** An ERROR is logged for an entry exactly when it is not well shaped, a
      WARN exactly when it is not warning-free and an INFO exactly when it
      carries a key outside the allowed set. */
  lemma {:induction false} EntryLevels(f: Flavor, aid: Json, e: Json)
    requires e.JObj?
    ensures Levels(EntryIssues(f, aid, e)) == Severities(!WellShaped(f, e), !WarnFree(f, e), !KnownKeys(f, e))
  {
    HeadLevels(f, aid, e);
    SectionsLevels(f, aid, e);
    LevelsConcat(HeadIssues(f, aid, e), SectionsIssues(f, aid, e));
  }

  // ------------------------------------------------------------ merging

  /** One input file: its name, and what loading it gave (the document, or
      the text of the exception reading it raised). */
  datatype Source = Source(name: string, load: Result<Json, string>)

  /** `yaml.safe_load(f) or {}`: what the script works on. */
  function Data(doc: Json): Json {
    Or(doc, JObj([]))
  }

  /** A loaded document the script can call `.get` on: a falsy one (read as
      `{}`) or a mapping. */
  predicate Loadable(src: Source) {
    src.load.Err? || Data(src.load.value).JObj?
  }

  predicate AllLoadable(files: seq<Source>) {
    forall i :: 0 <= i < |files| ==> Loadable(files[i])
  }

  /** What the top-level lookup finds. */
  datatype Top = Missing | NotMapping | Mapping(entries: seq<(Json, Json)>)

  /** The entries of a document: `data.get("actions")` for actions and
      `data.get("conditions", data)` for conditions, so that a conditions
      file without that key is read as a flat id-to-entry mapping. */
  function TopOf(f: Flavor, data: Json): (r: Top)
    requires data.JObj?
    ensures f.ConditionDicts? && !HasKey(data.entries, "conditions") ==> r == Mapping(data.entries)
    ensures f.ActionDicts? && !HasKey(data.entries, "actions") ==> r == Missing
    ensures r.Mapping? <==> Get(data, f.TopKey()).JObj? || (f.ConditionDicts? && !HasKey(data.entries, "conditions"))
  {
    var v := if f.ActionDicts? then Get(data, "actions") else GetOr(data, "conditions", data);
    if v == JNull then Missing
    else if !v.JObj? then NotMapping
    else Mapping(v.entries)
  }

  /** The merge state: entries and the file each came from, by id, and the
      issues logged so far. */
  datatype State = State(entries: map<int, Json>, sources: map<int, string>, issues: seq<Issue>)

  const Start := State(map[], map[], [])

  /** The INFO logged when an id already merged from another (non-empty)
      file name is merged again. */
  function OverrideNote(sources: map<int, string>, id: int, aid: Json, name: string): seq<Issue> {
    if id in sources && sources[id] != "" && sources[id] != name then One(Info, Overridden(aid, sources[id], name))
    else []
  }

  /** An entry the merge takes: an int-like key and a mapping value. */
  predicate Accepted(kv: (Json, Json)) {
    IsIntLikeKey(kv.0) && kv.1.JObj?
  }

  /** One `(k, v)` of a file's entries: a key that is not int-like and a
      value that is not a mapping are logged as ERRORs and skipped; any
      other entry is validated, then stored under its id whatever the
      validation found, replacing an earlier one. */
  function StepEntry(f: Flavor, s: State, name: string, kv: (Json, Json)): State {
    var (k, v) := kv;
    if !IsIntLikeKey(k) then s.(issues := s.issues + One(Error, KeyNotInteger(name, f.Noun(), k)))
    else
      var aid := Aid(k);
      var id := ToIntKey(k).value;
      if !v.JObj? then s.(issues := s.issues + One(Error, EntryNotMapping(name, f.Noun(), aid)))
      else
        State(s.entries[id := v], s.sources[id := name],
              s.issues + EntryIssues(f, aid, v) + OverrideNote(s.sources, id, aid, name))
  }

  /** The entries of one file, in order. */
  function StepEntries(f: Flavor, s: State, name: string, es: seq<(Json, Json)>): State
    decreases |es|
  {
    if es == [] then s
    else StepEntry(f, StepEntries(f, s, name, es[..|es| - 1]), name, es[|es| - 1])
  }

  /** Adding one more entry of a file is one more step. */
  lemma {:induction false} StepEntriesSnoc(f: Flavor, s: State, name: string, es: seq<(Json, Json)>, i: nat)
    requires i < |es|
    ensures StepEntries(f, s, name, es[..i + 1]) == StepEntry(f, StepEntries(f, s, name, es[..i]), name, es[i])
  {
    assert es[..i + 1][..i] == es[..i];
  }

  /** One file: a read failure is an ERROR, a missing top-level key a WARN
      and one that is not a mapping an ERROR; otherwise its entries. */
  function StepFile(f: Flavor, s: State, src: Source): State
    requires Loadable(src)
  {
    match src.load
    case Err(reason) => s.(issues := s.issues + One(Error, ReadFailed(src.name, reason)))
    case Ok(doc) =>
      match TopOf(f, Data(doc))
      case Missing => s.(issues := s.issues + One(Warn, MissingTop(src.name, f.TopKey())))
      case NotMapping => s.(issues := s.issues + One(Error, TopNotMapping(src.name, f.TopKey())))
      case Mapping(es) => StepEntries(f, s, src.name, es)
  }

  function StepFiles(f: Flavor, s: State, files: seq<Source>): State
    requires AllLoadable(files)
    decreases |files|
  {
    if files == [] then s
    else StepFile(f, StepFiles(f, s, files[..|files| - 1]), files[|files| - 1])
  }

  /** `merge_files`, before the output document is built. */
  function MergeAll(f: Flavor, files: seq<Source>): State
    requires AllLoadable(files)
  {
    StepFiles(f, Start, files)
  }

  // ------------------------------------------------------------ who wins

  /** The entries a file contributes: those of its top-level mapping. */
  function FileEntries(f: Flavor, src: Source): seq<(Json, Json)>
    requires Loadable(src)
  {
    if src.load.Ok? && TopOf(f, Data(src.load.value)).Mapping? then TopOf(f, Data(src.load.value)).entries
    else []
  }

  /** The value of the last accepted entry with id `id`, searching from the
      end. */
  function LastIn(es: seq<(Json, Json)>, id: int): (r: Option<Json>)
    ensures r.Some? <==> exists j :: 0 <= j < |es| && Accepted(es[j]) && ToIntKey(es[j].0) == Some(id)
    decreases |es|
  {
    if es == [] then None
    else
      var n := |es| - 1;
      assert forall j :: 0 <= j < n ==> es[..n][j] == es[j];
      if Accepted(es[n]) && ToIntKey(es[n].0) == Some(id) then Some(es[n].1) else LastIn(es[..n], id)
  }

  /** The entry that should end up under `id`, and the file it is from. */
  datatype Win = Win(value: Json, file: string)

  /** The winner for `id`: from the last file that has an accepted entry with
      that id, the last such entry. */
  function Winner(f: Flavor, files: seq<Source>, id: int): Option<Win>
    requires AllLoadable(files)
    decreases |files|
  {
    if files == [] then None
    else
      var n := |files| - 1;
      match LastIn(FileEntries(f, files[n]), id)
      case Some(v) => Some(Win(v, files[n].name))
      case None => Winner(f, files[..n], id)
  }

  /** The state holds `w` under `id` (or nothing, for None). */
  predicate Holds(s: State, id: int, w: Option<Win>) {
    match w
    case Some(win) => id in s.entries && id in s.sources && s.entries[id] == win.value && s.sources[id] == win.file
    case None => id !in s.entries && id !in s.sources
  }

  predicate SameIds(s: State) {
    s.entries.Keys == s.sources.Keys
  }

  /** An accepted entry is stored under its id with the file's name; any
      other entry leaves entries and sources as they were. */
  lemma {:induction false} StepEntryStores(f: Flavor, s: State, name: string, kv: (Json, Json))
    ensures var t := StepEntry(f, s, name, kv);
      if Accepted(kv) then t.entries == s.entries[ToIntKey(kv.0).value := kv.1] &&
                           t.sources == s.sources[ToIntKey(kv.0).value := name]
      else t.entries == s.entries && t.sources == s.sources
  {
  }

  /** Storing `v` from file `name` under `k` in both maps: `k` now holds
      that, and every other id holds what it held. */
  lemma {:induction false} StoreHolds(s: State, k: int, v: Json, name: string, id: int, w: Option<Win>)
    requires SameIds(s) && Holds(s, id, w)
    ensures var t := s.(entries := s.entries[k := v], sources := s.sources[k := name]);
      SameIds(t) && Holds(t, id, if k == id then Some(Win(v, name)) else w)
  {
    var t := s.(entries := s.entries[k := v], sources := s.sources[k := name]);
    assert t.entries.Keys == s.entries.Keys + {k};
    assert t.sources.Keys == s.sources.Keys + {k};
  }

  /** An accepted entry takes over its id; nothing else changes ids. */
  lemma {:induction false} StepEntryHolds(f: Flavor, s: State, name: string, kv: (Json, Json), id: int, w: Option<Win>)
    requires SameIds(s) && Holds(s, id, w)
    ensures var t := StepEntry(f, s, name, kv);
      SameIds(t) && Holds(t, id, if Accepted(kv) && ToIntKey(kv.0) == Some(id) then Some(Win(kv.1, name)) else w)
  {
    StepEntryStores(f, s, name, kv);
    if Accepted(kv) {
      StoreHolds(s, ToIntKey(kv.0).value, kv.1, name, id, w);
    }
  }

  /** Within one file, the last accepted entry for an id wins, and an id the
      file does not accept keeps what it had. */
  lemma {:induction false} StepEntriesHolds(f: Flavor, s: State, name: string, es: seq<(Json, Json)>, id: int,
                                            w: Option<Win>)
    requires SameIds(s) && Holds(s, id, w)
    ensures var t := StepEntries(f, s, name, es);
      SameIds(t) && Holds(t, id, match LastIn(es, id) case Some(v) => Some(Win(v, name)) case None => w)
    decreases |es|
  {
    if es != [] {
      var n := |es| - 1;
      StepEntriesHolds(f, s, name, es[..n], id, w);
      var w1 := match LastIn(es[..n], id) case Some(v) => Some(Win(v, name)) case None => w;
      StepEntryHolds(f, StepEntries(f, s, name, es[..n]), name, es[n], id, w1);
    }
  }

  /** A file's accepted entries take over their ids. */
  lemma {:induction false} StepFileHolds(f: Flavor, s: State, src: Source, id: int, w: Option<Win>)
    requires Loadable(src) && SameIds(s) && Holds(s, id, w)
    ensures var t := StepFile(f, s, src);
      SameIds(t) && Holds(t, id, match LastIn(FileEntries(f, src), id) case Some(v) => Some(Win(v, src.name)) case None => w)
  {
    if src.load.Ok? && TopOf(f, Data(src.load.value)).Mapping? {
      StepEntriesHolds(f, s, src.name, FileEntries(f, src), id, w);
    }
  }

  /** `merge_files` keeps, for every id, the entry of the last file that
      accepts it (the last one within that file) and that file's name, and
      has no other ids.  Validation issues play no part: an entry that fails
      validation is merged all the same. */
  lemma {:induction false} MergeWinner(f: Flavor, files: seq<Source>, id: int)
    requires AllLoadable(files)
    ensures SameIds(MergeAll(f, files))
    ensures Holds(MergeAll(f, files), id, Winner(f, files, id))
    decreases |files|
  {
    if files != [] {
      var n := |files| - 1;
      assert AllLoadable(files[..n]) by {
        forall i | 0 <= i < n ensures Loadable(files[..n][i]) {
          assert files[..n][i] == files[i];
        }
      }
      MergeWinner(f, files[..n], id);
      var s := MergeAll(f, files[..n]);
      assert StepFiles(f, Start, files) == StepFile(f, s, files[n]);
      StepFileHolds(f, s, files[n], id, Winner(f, files[..n], id));
    }
  }

  // ------------------------------------------------------------ severities of a merge

  /** Every entry of the list is accepted and well shaped. */
  predicate EntriesShaped(f: Flavor, es: seq<(Json, Json)>)
    decreases |es|
  {
    es == [] ||
    (EntriesShaped(f, es[..|es| - 1]) && Accepted(es[|es| - 1]) && WellShaped(f, es[|es| - 1].1))
  }

  /** Every accepted entry of the list is free of warnings. */
  predicate EntriesWarnFree(f: Flavor, es: seq<(Json, Json)>)
    decreases |es|
  {
    es == [] ||
    (EntriesWarnFree(f, es[..|es| - 1]) && (Accepted(es[|es| - 1]) ==> WarnFree(f, es[|es| - 1].1)))
  }

  /** A file the merge logs no ERROR for: it was read, its top-level value
      is a mapping (or absent), and each of its entries is accepted and well
      shaped. */
  predicate SourceErrorFree(f: Flavor, src: Source)
    requires Loadable(src)
  {
    src.load.Ok? && !TopOf(f, Data(src.load.value)).NotMapping? && EntriesShaped(f, FileEntries(f, src))
  }

  /** A file the merge logs no WARN for: its top-level key is present (when
      it was read) and its accepted entries are free of warnings. */
  predicate SourceWarnFree(f: Flavor, src: Source)
    requires Loadable(src)
  {
    (src.load.Ok? ==> !TopOf(f, Data(src.load.value)).Missing?) && EntriesWarnFree(f, FileEntries(f, src))
  }

  /** One entry adds an ERROR exactly when it is rejected or not well
      shaped, and a WARN exactly when it is accepted and not warning-free. */
  lemma {:induction false} StepEntryLevels(f: Flavor, s: State, name: string, kv: (Json, Json))
    ensures var l := Levels(StepEntry(f, s, name, kv).issues);
      l.error == (Levels(s.issues).error || !(Accepted(kv) && WellShaped(f, kv.1))) &&
      l.warn == (Levels(s.issues).warn || (Accepted(kv) && !WarnFree(f, kv.1)))
  {
    var (k, v) := kv;
    if !IsIntLikeKey(k) {
      LevelsConcat(s.issues, One(Error, KeyNotInteger(name, f.Noun(), k)));
    } else if !v.JObj? {
      LevelsConcat(s.issues, One(Error, EntryNotMapping(name, f.Noun(), Aid(k))));
    } else {
      var id := ToIntKey(k).value;
      var e := EntryIssues(f, Aid(k), v);
      EntryLevels(f, Aid(k), v);
      var o := OverrideNote(s.sources, id, Aid(k), name);
      LevelsConcat(s.issues, e);
      LevelsConcat(s.issues + e, o);
    }
  }

  lemma {:induction false} StepEntriesLevels(f: Flavor, s: State, name: string, es: seq<(Json, Json)>)
    ensures var l := Levels(StepEntries(f, s, name, es).issues);
      l.error == (Levels(s.issues).error || !EntriesShaped(f, es)) &&
      l.warn == (Levels(s.issues).warn || !EntriesWarnFree(f, es))
    decreases |es|
  {
    if es != [] {
      var n := |es| - 1;
      StepEntriesLevels(f, s, name, es[..n]);
      StepEntryLevels(f, StepEntries(f, s, name, es[..n]), name, es[n]);
    }
  }

  lemma {:induction false} StepFileLevels(f: Flavor, s: State, src: Source)
    requires Loadable(src)
    ensures var l := Levels(StepFile(f, s, src).issues);
      l.error == (Levels(s.issues).error || !SourceErrorFree(f, src)) &&
      l.warn == (Levels(s.issues).warn || !SourceWarnFree(f, src))
  {
    match src.load
    case Err(reason) =>
      LevelsConcat(s.issues, One(Error, ReadFailed(src.name, reason)));
    case Ok(doc) =>
      match TopOf(f, Data(doc))
      case Missing =>
        LevelsConcat(s.issues, One(Warn, MissingTop(src.name, f.TopKey())));
      case NotMapping =>
        LevelsConcat(s.issues, One(Error, TopNotMapping(src.name, f.TopKey())));
      case Mapping(es) =>
        StepEntriesLevels(f, s, src.name, es);
  }

  /** Every file, in order, is free of errors. */
  predicate FilesErrorFree(f: Flavor, files: seq<Source>)
    requires AllLoadable(files)
    decreases |files|
  {
    files == [] ||
    (FilesErrorFree(f, files[..|files| - 1]) && SourceErrorFree(f, files[|files| - 1]))
  }

  /** Every file, in order, is free of warnings. */
  predicate FilesWarnFree(f: Flavor, files: seq<Source>)
    requires AllLoadable(files)
    decreases |files|
  {
    files == [] ||
    (FilesWarnFree(f, files[..|files| - 1]) && SourceWarnFree(f, files[|files| - 1]))
  }

  /** The merge logs an ERROR exactly when some file fails to read, has a
      top-level value that is not a mapping, or has an entry that is
      rejected or not well shaped; and a WARN exactly when some file read
      lacks the top-level key or has an accepted entry that is not
      warning-free. */
  lemma {:induction false} MergeLevels(f: Flavor, files: seq<Source>)
    requires AllLoadable(files)
    ensures Levels(MergeAll(f, files).issues).error == !FilesErrorFree(f, files)
    ensures Levels(MergeAll(f, files).issues).warn == !FilesWarnFree(f, files)
    decreases |files|
  {
    if files == [] {
      assert Levels([]) == Severities(false, false, false);
    } else {
      var n := |files| - 1;
      MergeLevels(f, files[..n]);
      StepFileLevels(f, MergeAll(f, files[..n]), files[n]);
    }
  }

  /** `main`'s exit status: 2 without input files, 1 when any ERROR was
      logged, 3 under `--strict` when a WARN was, and 0 otherwise. */
  function ExitStatus(fileCount: nat, issues: seq<Issue>, strict: bool): int {
    if fileCount == 0 then 2
    else if Levels(issues).error then 1
    else if strict && Levels(issues).warn then 3
    else 0
  }

  /** What the exit status says about the input files: 0 exactly when every
      file is free of errors (and, under `--strict`, of warnings), 1 exactly
      when some file is not free of errors, and 3 exactly when under
      `--strict` all are free of errors but some file is not free of
      warnings. */
  lemma {:induction false} ExitStatusMeaning(f: Flavor, files: seq<Source>, strict: bool)
    requires AllLoadable(files) && files != []
    ensures var code := ExitStatus(|files|, MergeAll(f, files).issues, strict);
      (code == 0 <==> FilesErrorFree(f, files) && (strict ==> FilesWarnFree(f, files))) &&
      (code == 1 <==> !FilesErrorFree(f, files)) &&
      (code == 3 <==> strict && FilesErrorFree(f, files) && !FilesWarnFree(f, files))
  {
    MergeLevels(f, files);
  }

  /** An INFO `overridden` is logged for an id exactly when the file that
      last supplied it has a non-empty name other than the current one: a
      repeat of an id within the same file replaces the entry silently. */
  lemma {:induction false} OverrideAcrossFiles(f: Flavor, files: seq<Source>, i: nat, id: int, aid: Json, name: string)
    requires AllLoadable(files) && i <= |files|
    ensures AllLoadable(files[..i])
    ensures var w := Winner(f, files[..i], id);
      OverrideNote(MergeAll(f, files[..i]).sources, id, aid, name) != [] <==>
      (w.Some? && w.value.file != "" && w.value.file != name)
  {
    assert AllLoadable(files[..i]) by {
      forall j | 0 <= j < i ensures Loadable(files[..i][j]) {
        assert files[..i][j] == files[j];
      }
    }
    MergeWinner(f, files[..i], id);
  }

  // ------------------------------------------------------------ the merged document

  /** The merged entries, keyed by their ids in increasing order. */
  function SortedEntries(m: map<int, Json>): (r: seq<(Json, Json)>)
    ensures |r| == |SortedIds(m.Keys)|
    ensures forall i :: 0 <= i < |r| ==> r[i].0 == JInt(SortedIds(m.Keys)[i]) && r[i].1 == m[SortedIds(m.Keys)[i]]
  {
    var ks := SortedIds(m.Keys);
    seq(|ks|, i requires 0 <= i < |ks| => (JInt(ks[i]), m[ks[i]]))
  }

  /** The merged mapping lists every merged id once, in increasing order,
      with the entry merged under it, and nothing else. */
  lemma {:induction false} SortedEntriesSpec(m: map<int, Json>)
    ensures var r := SortedEntries(m);
      (forall i, j :: 0 <= i < j < |r| ==> r[i].0.JInt? && r[j].0.JInt? && r[i].0.i < r[j].0.i) &&
      (forall i :: 0 <= i < |r| ==> r[i].0.JInt? && r[i].0.i in m && r[i].1 == m[r[i].0.i]) &&
      (forall id :: id in m ==> exists i :: 0 <= i < |r| && r[i].0 == JInt(id))
  {
    var r := SortedEntries(m);
    var ks := SortedIds(m.Keys);
    forall id | id in m ensures exists i :: 0 <= i < |r| && r[i].0 == JInt(id) {
      assert id in ks;
      var i :| 0 <= i < |ks| && ks[i] == id;
      assert r[i].0 == JInt(id);
    }
  }

  /** The fields that precede the merged entries in the output document:
      the schema version, where it came from and a note on precedence; none
      of them is the top-level key. */
  function Preamble(f: Flavor): (r: seq<(Json, Json)>)
    ensures |r| == 3 && forall i :: 0 <= i < |r| ==> r[i].0 != JStr(f.TopKey())
  {
    [(JStr("schema_version"), JInt(1)), (JStr("source"), JStr("merged")), (JStr("notes"), JStr(f.Notes()))]
  }

  /** The document `merge_files` returns: the preamble, then the merged
      entries under the top-level key. */
  function MergedDoc(f: Flavor, entries: map<int, Json>): (r: Json)
    ensures r.JObj?
    ensures Get(r, f.TopKey()) == JObj(SortedEntries(entries))
  {
    var pre := Preamble(f);
    var es := pre + [(JStr(f.TopKey()), JObj(SortedEntries(entries)))];
    assert forall i :: 0 <= i < 3 ==> es[i] == pre[i];
    GetIs(es, f.TopKey(), 3);
    JObj(es)
  }
}
