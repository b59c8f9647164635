/** The merge scripts as they run: a `MergeState` whose entries, sources and
    issue log are updated in place by the validation and merge steps, each
    step proved to do what the functions of `DictMerge` describe. */
module MergeRun {
  import opened Wrappers
  import opened PyValue
  import opened DictMerge

  /** Appending to a log in two steps appends both parts. */
  lemma Assoc(x: seq<Issue>, a: seq<Issue>, b: seq<Issue>)
    ensures x + a + b == x + (a + b)
  {
  }

  /** `MergeState`: the merged entries by id, the file each came from, and
      the issues logged so far. */
  class MergeState {
    var entries: map<int, Json>
    var sources: map<int, string>
    var issues: seq<Issue>

    /** The state as a value. */
    function Value(): State
      reads this
    {
      State(entries, sources, issues)
    }

    constructor ()
      ensures Value() == Start
    {
      entries := map[];
      sources := map[];
      issues := [];
    }

    /** `log`: append one issue. */
    method Log(level: Level, msg: Message)
      modifies this`issues
      ensures issues == old(issues) + One(level, msg)
    {
      issues := issues + [Issue(level, msg)];
    }

    /** A parameter index is int-like and within `1..hi`. */
    method CheckParam(aid: Json, field: string, p: Json, hi: int, optional: bool)
      modifies this`issues
      ensures issues == old(issues) + ParamIssues(aid, field, p, hi, optional)
    {
      if !IsIntLikeKey(p) {
        Log(Error, IndexNotInt(aid, field, hi, optional));
      } else if !(1 <= ToIntKey(p).value <= hi) {
        Log(Error, IndexOutOfRange(aid, field, p, hi));
      } else {
        assert issues + [] == issues;
      }
    }

    /** A required field is a non-empty string. */
    method CheckRequired(aid: Json, field: string, o: Json, key: string)
      requires o.JObj?
      modifies this`issues
      ensures issues == old(issues) + RequiredIssues(aid, field, o, key)
    {
      if !NonEmptyStr(o, key) {
        Log(Error, EmptyString(aid, field));
      } else {
        assert issues + [] == issues;
      }
    }

    /** An optional field, when given, is a string. */
    method CheckOptional(aid: Json, item: string, field: string, v: Json)
      modifies this`issues
      ensures issues == old(issues) + OptionalIssues(aid, item, field, v)
    {
      if !OptStr(v) {
        Log(Warn, NotString(aid, item, field));
      } else {
        assert issues + [] == issues;
      }
    }

    /** The edge fields named in `keys`, in turn: a WARN for each that is
        given but is not a string. */
    method CheckEdgeFields(aid: Json, r: Json, keys: seq<string>)
      requires r.JObj?
      modifies this`issues
      ensures issues == old(issues) + EdgeFieldIssues(aid, r, keys)
    {
      var i := 0;
      while i < |keys|
        invariant 0 <= i <= |keys|
        invariant issues == old(issues) + EdgeFieldIssues(aid, r, keys[..i])
      {
        var key := keys[i];
        ghost var done := EdgeFieldIssues(aid, r, keys[..i]);
        ghost var next := OptionalIssues(aid, "produces_edges", key, Get(r, key));
        CheckOptional(aid, "produces_edges", key, Get(r, key));
        EdgeFieldIssuesSnoc(aid, r, keys, i);
        Assoc(old(issues), done, next);
        i := i + 1;
      }
      assert keys[..|keys|] == keys;
    }

    /** An edge rule's `from_param`: nothing when absent, otherwise the
        index checks. */
    method CheckFromParam(f: Flavor, aid: Json, fp: Json)
      modifies this`issues
      ensures issues == old(issues) + FromParamIssues(f, aid, fp)
    {
      if fp != JNull {
        CheckParam(aid, "produces_edges.from_param", fp, f.MaxParam(), true);
      } else {
        assert issues + [] == issues;
      }
    }

    /** The checks of one `produces_edges` rule: `from_param`, then `to`,
        `label` and `style` in turn. */
    method CheckEdge(f: Flavor, aid: Json, r: Json)
      requires r.JObj?
      modifies this`issues
      ensures issues == old(issues) + EdgeIssues(f, aid, r)
    {
      ghost var a := FromParamIssues(f, aid, Get(r, "from_param"));
      ghost var b := EdgeFieldIssues(aid, r, EdgeFields);
      CheckFromParam(f, aid, Get(r, "from_param"));
      CheckEdgeFields(aid, r, EdgeFields);
      Assoc(old(issues), a, b);
    }

    /** The checks of one `references` item. */
    method CheckRef(f: Flavor, aid: Json, r: Json)
      requires r.JObj?
      modifies this`issues
      ensures issues == old(issues) + RefIssues(f, aid, r)
    {
      ghost var a := ParamIssues(aid, "reference.param", Get(r, "param"), f.MaxParam(), false);
      ghost var b := RequiredIssues(aid, "reference.type", r, "type");
      ghost var c := OptionalIssues(aid, "reference", "role", Get(r, "role"));
      CheckParam(aid, "reference.param", Get(r, "param"), f.MaxParam(), false);
      CheckRequired(aid, "reference.type", r, "type");
      CheckOptional(aid, "reference", "role", Get(r, "role"));
      assert RefIssues(f, aid, r) == a + b + c;
      Assoc(old(issues), a, b);
      Assoc(old(issues), a + b, c);
    }

    /** The checks of one `context_refs` item. */
    method CheckContext(aid: Json, r: Json)
      requires r.JObj?
      modifies this`issues
      ensures issues == old(issues) + ContextIssues(aid, r)
    {
      CheckRequired(aid, "context_ref.source", r, "source");
      CheckRequired(aid, "context_ref.type", r, "type");
      CheckOptional(aid, "context_ref", "role", Get(r, "role"));
    }

    /** The checks of one `value_fields` item. */
    method CheckField(f: Flavor, aid: Json, r: Json)
      requires r.JObj?
      modifies this`issues
      ensures issues == old(issues) + FieldIssues(f, aid, r)
    {
      ghost var a := ParamIssues(aid, "value_field.param", Get(r, "param"), f.MaxParam(), false);
      ghost var b := RequiredIssues(aid, "value_field.name", r, "name");
      ghost var c := OptionalIssues(aid, "value_field", "unit", Get(r, "unit"));
      CheckParam(aid, "value_field.param", Get(r, "param"), f.MaxParam(), false);
      CheckRequired(aid, "value_field.name", r, "name");
      CheckOptional(aid, "value_field", "unit", Get(r, "unit"));
      assert FieldIssues(f, aid, r) == a + b + c;
      Assoc(old(issues), a, b);
      Assoc(old(issues), a + b, c);
    }

    /** The checks of one item of a section: an ERROR for an item that is
        not a mapping, otherwise the section's own checks. */
    method CheckItem(f: Flavor, aid: Json, sec: Section, r: Json)
      modifies this`issues
      ensures issues == old(issues) + ItemIssues(f, aid, sec, r)
    {
      if !r.JObj? {
        Log(Error, ItemNotDict(aid, sec.Item()));
        return;
      }
      match sec
      case References => CheckRef(f, aid, r);
      case ContextRefs => CheckContext(aid, r);
      case ValueFields => CheckField(f, aid, r);
      case ProducesEdges => CheckEdge(f, aid, r);
    }

    /** One section, `e.get(key, [])`: an ERROR when it is neither absent
        nor a list, otherwise the checks of its items in order. */
    method CheckSection(f: Flavor, aid: Json, sec: Section, e: Json)
      requires e.JObj?
      modifies this`issues
      ensures issues == old(issues) + SectionIssues(f, aid, sec, e)
    {
      var v := SectionOf(sec, e);
      if v != JNull && !v.JList? {
        Log(Error, SectionNotList(aid, sec.Key()));
        return;
      }
      var xs := if v.JList? then v.items else [];
      var i := 0;
      while i < |xs|
        invariant 0 <= i <= |xs|
        invariant issues == old(issues) + ItemsIssues(f, aid, sec, xs[..i])
      {
        ghost var done := ItemsIssues(f, aid, sec, xs[..i]);
        CheckItem(f, aid, sec, xs[i]);
        ItemsIssuesSnoc(f, aid, sec, xs, i);
        Assoc(old(issues), done, ItemIssues(f, aid, sec, xs[i]));
        i := i + 1;
      }
      assert xs[..|xs|] == xs;
    }

    /** `params`: an ERROR unless it is a list of an allowed length, and then
        a WARN for each parameter that is not a string type label. */
    method CheckParams(f: Flavor, aid: Json, p: Json)
      modifies this`issues
      ensures issues == old(issues) + ParamsIssues(f, aid, p)
    {
      if !p.JList? {
        Log(Error, ParamsNotList(aid, f.LengthText()));
        return;
      }
      var ps := p.items;
      if !f.LengthOk(|ps|) {
        Log(Error, ParamsLength(aid, f.LengthText(), |ps|));
        return;
      }
      var i := 0;
      while i < |ps|
        invariant 0 <= i <= |ps|
        invariant issues == old(issues) + ParamTypeIssues(aid, ps[..i])
      {
        ghost var done := ParamTypeIssues(aid, ps[..i]);
        ghost var next := ParamNote(aid, i + 1, ps[i]);
        if !ps[i].JStr? {
          Log(Warn, ParamNotString(aid, i + 1, TypeName(ps[i])));
        }
        ParamTypeIssuesSnoc(aid, ps, i);
        Assoc(old(issues), done, next);
        i := i + 1;
      }
      assert ps[..|ps|] == ps;
    }

    /** An INFO for every key outside the allowed set, in order. */
    method CheckKeys(f: Flavor, aid: Json, e: Json)
      requires e.JObj?
      modifies this`issues
      ensures issues == old(issues) + KeyIssues(f, aid, Keys(e.entries))
    {
      var ks := Keys(e.entries);
      var i := 0;
      while i < |ks|
        invariant 0 <= i <= |ks|
        invariant issues == old(issues) + KeyIssues(f, aid, ks[..i])
      {
        ghost var done := KeyIssues(f, aid, ks[..i]);
        ghost var next := KeyNote(f, aid, ks[i]);
        if !Allowed(f, ks[i]) {
          Log(Info, UnknownKey(aid, ks[i]));
        }
        KeyIssuesSnoc(f, aid, ks, i);
        Assoc(old(issues), done, next);
        i := i + 1;
      }
      assert ks[..|ks|] == ks;
    }

    /** `name` is a non-empty string. */
    method CheckName(aid: Json, e: Json)
      requires e.JObj?
      modifies this`issues
      ensures issues == old(issues) + NameIssues(aid, e)
    {
      if !NonEmptyStr(e, "name") {
        Log(Error, BadName(aid));
      } else {
        assert issues + [] == issues;
      }
    }

    /** `needs_string`: a WARN when actions carry it, or when a condition's
        is not a boolean. */
    method CheckNeedsString(f: Flavor, aid: Json, e: Json)
      requires e.JObj?
      modifies this`issues
      ensures issues == old(issues) + NeedsStringIssues(f, aid, e)
    {
      if HasKey(e.entries, "needs_string") {
        if f.ActionDicts? {
          Log(Warn, NeedsStringPresent(aid));
        } else if !Get(e, "needs_string").JBool? {
          Log(Warn, NeedsStringNotBool(aid));
        } else {
          assert issues + [] == issues;
        }
      } else {
        assert issues + [] == issues;
      }
    }

    /** The name, the parameters, `needs_string` and the keys. */
    method CheckHead(f: Flavor, aid: Json, e: Json)
      requires e.JObj?
      modifies this`issues
      ensures issues == old(issues) + HeadIssues(f, aid, e)
    {
      ghost var a := NameIssues(aid, e);
      ghost var b := ParamsIssues(f, aid, Get(e, "params"));
      ghost var c := NeedsStringIssues(f, aid, e);
      ghost var d := KeyIssues(f, aid, Keys(e.entries));
      CheckName(aid, e);
      CheckParams(f, aid, Get(e, "params"));
      CheckNeedsString(f, aid, e);
      CheckKeys(f, aid, e);
      Assoc(old(issues), a, b);
      Assoc(old(issues), a + b, c);
      Assoc(old(issues), a + b + c, d);
    }

    /** The four sections, in order. */
    method CheckSections(f: Flavor, aid: Json, e: Json)
      requires e.JObj?
      modifies this`issues
      ensures issues == old(issues) + SectionsIssues(f, aid, e)
    {
      ghost var a := SectionIssues(f, aid, References, e);
      ghost var b := SectionIssues(f, aid, ContextRefs, e);
      ghost var c := SectionIssues(f, aid, ValueFields, e);
      ghost var d := SectionIssues(f, aid, ProducesEdges, e);
      CheckSection(f, aid, References, e);
      CheckSection(f, aid, ContextRefs, e);
      CheckSection(f, aid, ValueFields, e);
      CheckSection(f, aid, ProducesEdges, e);
      Assoc(old(issues), a, b);
      Assoc(old(issues), a + b, c);
      Assoc(old(issues), a + b + c, d);
    }

    /** `validate_action` / `validate_condition`: logs the issues of one
        entry, and changes nothing else. */
    method Validate(f: Flavor, aid: Json, e: Json)
      requires e.JObj?
      modifies this`issues
      ensures issues == old(issues) + EntryIssues(f, aid, e)
    {
      ghost var a := HeadIssues(f, aid, e);
      CheckHead(f, aid, e);
      CheckSections(f, aid, e);
      Assoc(old(issues), a, SectionsIssues(f, aid, e));
    }

    /** One `(k, v)` of a file's entries: rejected with an ERROR when the key
        is not int-like or the value not a mapping; otherwise validated,
        stored under its id with the file's name, and noted with an INFO
        when it replaces an entry another file supplied. */
    method AddEntry(f: Flavor, name: string, k: Json, v: Json)
      modifies this
      ensures Value() == StepEntry(f, old(Value()), name, (k, v))
    {
      if !IsIntLikeKey(k) {
        Log(Error, KeyNotInteger(name, f.Noun(), k));
        return;
      }
      var aid := Aid(k);
      var id := ToIntKey(k).value;
      if !v.JObj? {
        Log(Error, EntryNotMapping(name, f.Noun(), aid));
        return;
      }
      Validate(f, aid, v);
      ghost var checked := issues;
      var prev := if id in sources then sources[id] else "";
      ghost var note := OverrideNote(sources, id, aid, name);
      entries := entries[id := v];
      sources := sources[id := name];
      if prev != "" && prev != name {
        Log(Info, Overridden(aid, prev, name));
      } else {
        assert issues == checked + note;
      }
    }

    /** One input file: a read failure, a missing top-level key and one that
        is not a mapping are logged; otherwise its entries are added in
        order. */
    method AddFile(f: Flavor, src: Source)
      requires Loadable(src)
      modifies this
      ensures Value() == StepFile(f, old(Value()), src)
    {
      match src.load
      case Err(reason) =>
        Log(Error, ReadFailed(src.name, reason));
      case Ok(doc) =>
        match TopOf(f, Data(doc))
        case Missing =>
          Log(Warn, MissingTop(src.name, f.TopKey()));
        case NotMapping =>
          Log(Error, TopNotMapping(src.name, f.TopKey()));
        case Mapping(es) =>
          var i := 0;
          while i < |es|
            invariant 0 <= i <= |es|
            invariant Value() == StepEntries(f, old(Value()), src.name, es[..i])
          {
            AddEntry(f, src.name, es[i].0, es[i].1);
            StepEntriesSnoc(f, old(Value()), src.name, es, i);
            i := i + 1;
          }
          assert es[..|es|] == es;
    }
  }

  /** `merge_files`: the files are merged in order into a fresh state, and
      the output document holds the merged entries sorted by id. */
  method MergeFiles(f: Flavor, files: seq<Source>) returns (doc: Json, issues: seq<Issue>)
    requires AllLoadable(files)
    ensures doc == MergedDoc(f, MergeAll(f, files).entries)
    ensures issues == MergeAll(f, files).issues
  {
    var st := new MergeState();
    var i := 0;
    while i < |files|
      invariant 0 <= i <= |files|
      invariant AllLoadable(files[..i])
      invariant st.Value() == StepFiles(f, Start, files[..i])
    {
      st.AddFile(f, files[i]);
      assert files[..i + 1][..i] == files[..i];
      i := i + 1;
    }
    assert files[..|files|] == files;
    doc := MergedDoc(f, st.entries);
    issues := st.issues;
  }

  /** `any(i.level == "ERROR" ...)` and `any(i.level == "WARN" ...)`. */
  method Scan(issues: seq<Issue>) returns (hasError: bool, hasWarn: bool)
    ensures hasError == Levels(issues).error && hasWarn == Levels(issues).warn
  {
    hasError, hasWarn := false, false;
    var i := 0;
    while i < |issues|
      invariant 0 <= i <= |issues|
      invariant hasError == Levels(issues[..i]).error && hasWarn == Levels(issues[..i]).warn
    {
      assert issues[..i + 1][..i] == issues[..i];
      hasError := hasError || issues[i].level == Error;
      hasWarn := hasWarn || issues[i].level == Warn;
      i := i + 1;
    }
    assert issues[..|issues|] == issues;
  }

  /** `main` after the input files are chosen: 2 without files; otherwise
      the merge runs and the status is 1 when an ERROR was logged, 3 under
      `--strict` when only a WARN was, and 0 otherwise. */
  method RunMerge(f: Flavor, files: seq<Source>, strict: bool) returns (code: int)
    requires AllLoadable(files)
    ensures files == [] ==> code == 2
    ensures files != [] ==> code == ExitStatus(|files|, MergeAll(f, files).issues, strict)
    ensures files != [] ==>
      (code == 0 <==> FilesErrorFree(f, files) && (strict ==> FilesWarnFree(f, files))) &&
      (code == 1 <==> !FilesErrorFree(f, files)) &&
      (code == 3 <==> strict && FilesErrorFree(f, files) && !FilesWarnFree(f, files))
  {
    if files == [] {
      return 2;
    }
    var doc, issues := MergeFiles(f, files);
    var hasError, hasWarn := Scan(issues);
    if hasError || (strict && hasWarn) {
      code := if hasError then 1 else 3;
    } else {
      code := 0;
    }
    ExitStatusMeaning(f, files, strict);
  }
}
