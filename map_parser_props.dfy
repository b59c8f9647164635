/** What the section parser guarantees: the shape of every record it
    stores, that each line of a map file yields at most one error and that
    error names the line, and that the line formats round-trip. */
module MapParserProps {
  import opened Wrappers
  import opened Text
  import opened MapParser

  // ------------------------------------------------------ trigger lines

  /** A trigger line is accepted exactly when it has eight fields whose last
      five are integers; `<none>` in any case clears the linked trigger. */
  lemma {:induction false} TriggerLineAccepts(idKey: string, values: seq<string>, n: nat)
    ensures TriggerLine(idKey, values, n).Ok? <==>
      |values| == 8 && forall i :: 3 <= i < 8 ==> IsIntLike(values[i])
    ensures TriggerLine(idKey, values, n).Ok? ==>
      var row := TriggerLine(idKey, values, n).value;
      row.id == idKey && row.house == values[0] && row.name == values[2] &&
      (row.linkedTrigger.None? <==> Lower(values[1]) == "<none>") &&
      (row.linkedTrigger.Some? ==> row.linkedTrigger.value == values[1]) &&
      Some(row.disabled) == ParseInt(values[3]) && Some(row.easy) == ParseInt(values[4]) &&
      Some(row.normal) == ParseInt(values[5]) && Some(row.hard) == ParseInt(values[6]) &&
      Some(row.persistence) == ParseInt(values[7]) &&
      row.source == SourceLoc(Triggers, n)
    ensures |values| != 8 ==> TriggerLine(idKey, values, n) == Err(TriggerFieldCount(values))
    ensures |values| == 8 && TriggerLine(idKey, values, n).Err? ==>
      TriggerLine(idKey, values, n) == Err(TriggerBadInts(values[3..]))
  {
    if |values| == 8 && forall i :: 3 <= i < 8 ==> IsIntLike(values[i]) {
      assert IsIntLike(values[3]) && IsIntLike(values[4]) && IsIntLike(values[5]);
      assert IsIntLike(values[6]) && IsIntLike(values[7]);
    }
  }

  lemma {:induction false} TailOfCons<T>(x: T, a: seq<T>, b: seq<T>)
    ensures ([x] + a + b)[0] == x && ([x] + a + b)[1..] == a + b
  {
  }

  lemma {:induction false} ConsAppend<T>(acc: seq<T>, xs: seq<T>)
    requires xs != []
    ensures acc + [xs[0]] + xs[1..] == acc + xs
  {
  }

  // -------------------------------------------------------- event lines

  predicate P3NotInt(c: EventCondition) {
    c.p3.Some? ==> !IsIntLike(c.p3.value)
  }

  predicate AllP3NotInt(cs: seq<EventCondition>) {
    forall k :: 0 <= k < |cs| ==> P3NotInt(cs[k])
  }

  lemma {:induction false} ScanConditionsKeepsP3(
    tokens: seq<string>, rest: seq<string>, at: nat, num: int, acc: seq<EventCondition>)
    requires AllP3NotInt(acc)
    ensures ScanConditions(tokens, rest, at, num, acc).Ok? ==>
      AllP3NotInt(ScanConditions(tokens, rest, at, num, acc).value)
    decreases |rest|
  {
    if |rest| >= 3 {
      assert ScanConditions(tokens, rest, at, num, acc) == ScanCondition(tokens, rest, at, num, acc);
      match (ParseInt(rest[0]), ParseInt(rest[1]), ParseInt(rest[2]))
      case (Some(c), Some(a), Some(b)) =>
        var takeP3 := |rest| > 3 && !IsIntLike(rest[3]);
        var cond := EventCondition(c, a, b, if takeP3 then Some(rest[3]) else None);
        var used := if takeP3 then 4 else 3;
        var acc' := acc + [cond];
        assert P3NotInt(cond);
        assert AllP3NotInt(acc') by {
          forall k | 0 <= k < |acc'| ensures P3NotInt(acc'[k]) {
            if k < |acc| { assert acc'[k] == acc[k]; }
          }
        }
        if |acc'| == num {
          assert ScanCondition(tokens, rest, at, num, acc) == Ok(acc');
        } else {
          var at': nat := at + used;
          assert ScanCondition(tokens, rest, at, num, acc) == ScanConditions(tokens, rest[used..], at', num, acc');
          ScanConditionsKeepsP3(tokens, rest[used..], at', num, acc');
        }
      case _ =>
    }
  }

  /** An accepted event line holds exactly NUM conditions, and a condition
      has a `p3` only when the token after its triplet was not an integer. */
  lemma {:induction false} EventLineShape(idKey: string, values: seq<string>, n: nat)
    ensures EventLine(idKey, values, n).Ok? ==>
      var row := EventLine(idKey, values, n).value;
      row.id == idKey && row.num >= 0 && |row.conditions| == row.num &&
      Some(row.num) == ParseInt(values[0]) &&
      AllP3NotInt(row.conditions)
  {
    if values != [] && ParseInt(values[0]).Some? {
      var num, tokens := ParseInt(values[0]).value, values[1..];
      ScanConditionsKeepsP3(tokens, tokens, 0, num, []);
      if EventLine(idKey, values, n).Ok? {
        assert EventLine(idKey, values, n).value.conditions == ScanConditions(tokens, tokens, 0, num, []).value;
      }
    }
  }

  /** The tokens one condition is written as. */
  function ConditionTokens(c: EventCondition): seq<string> {
    [IntToString(c.condId), IntToString(c.p1), IntToString(c.p2)]
      + (if c.p3.Some? then [c.p3.value] else [])
  }

  function Concat(cts: seq<seq<string>>): seq<string> {
    if cts == [] then [] else cts[0] + Concat(cts[1..])
  }

  function ConditionsTokens(cs: seq<EventCondition>): seq<string> {
    Concat(seq(|cs|, i requires 0 <= i < |cs| => ConditionTokens(cs[i])))
  }

  /** `ct` is a text the scan reads back as condition `c`: three integer
      tokens, and a fourth, non-integer one exactly when `c` has a `p3`. */
  ghost predicate Writes(ct: seq<string>, c: EventCondition) {
    (|ct| == 3 || |ct| == 4) &&
    ParseInt(ct[0]) == Some(c.condId) && ParseInt(ct[1]) == Some(c.p1) &&
    ParseInt(ct[2]) == Some(c.p2) &&
    (c.p3.Some? <==> |ct| == 4) &&
    (|ct| == 4 ==> ct[3] == c.p3.value && !IsIntLike(ct[3]))
  }

  lemma {:induction false} ConditionTokensWrite(c: EventCondition)
    requires P3NotInt(c)
    ensures Writes(ConditionTokens(c), c)
  {
    ParseIntOfIntToString(c.condId);
    ParseIntOfIntToString(c.p1);
    ParseIntOfIntToString(c.p2);
  }

  /** One condition's tokens in front of the rest: one step of the scan. */
  lemma {:induction false} ScanConditionsStep(
    tokens: seq<string>, ct: seq<string>, c: EventCondition, post: seq<string>, at: nat, num: int, acc: seq<EventCondition>)
    requires Writes(ct, c)
    requires |ct| == 3 && post != [] ==> IsIntLike(post[0])
    ensures ScanConditions(tokens, ct + post, at, num, acc) ==
      if |acc| + 1 == num then Ok(acc + [c])
      else ScanConditions(tokens, post, at + |ct|, num, acc + [c])
  {
    var rest := ct + post;
    assert ScanConditions(tokens, rest, at, num, acc) == ScanCondition(tokens, rest, at, num, acc);
    assert rest[0] == ct[0] && rest[1] == ct[1] && rest[2] == ct[2];
    assert rest[|ct|..] == post;
    if |ct| == 4 {
      assert rest[3] == ct[3];
    } else if post != [] {
      assert rest[3] == post[0];
    }
  }

  /** The chunks after the first, and what follows them. */
  lemma {:induction false} ConcatTail(cts: seq<seq<string>>, extra: seq<string>)
    requires cts != []
    ensures Concat(cts) + extra == cts[0] + (Concat(cts[1..]) + extra)
    ensures |cts| > 1 && cts[1] != [] ==> (Concat(cts[1..]) + extra)[0] == cts[1][0]
  {
    if |cts| > 1 {
      assert Concat(cts[1..]) == cts[1] + Concat(cts[2..]);
    }
  }

  lemma {:induction false} ScanConditionsRoundTrip(
    tokens: seq<string>, cts: seq<seq<string>>, cs: seq<EventCondition>, extra: seq<string>,
    at: nat, num: int, acc: seq<EventCondition>)
    requires |cts| == |cs| >= 1 && |acc| + |cs| == num
    requires forall k :: 0 <= k < |cs| ==> Writes(cts[k], cs[k])
    requires extra != [] && |cts[|cts| - 1]| == 3 ==> IsIntLike(extra[0])
    ensures ScanConditions(tokens, Concat(cts) + extra, at, num, acc) == Ok(acc + cs)
    decreases |cs|
  {
    var post := Concat(cts[1..]) + extra;
    ConcatTail(cts, extra);
    assert Writes(cts[0], cs[0]);
    if |cs| > 1 {
      assert Writes(cts[1], cs[1]);
    }
    ScanConditionsStep(tokens, cts[0], cs[0], post, at, num, acc);
    if |cs| > 1 {
      assert forall k :: 0 <= k < |cs[1..]| ==> Writes(cts[1..][k], cs[1..][k]) by {
        forall k | 0 <= k < |cs[1..]| ensures Writes(cts[1..][k], cs[1..][k]) {
          assert cts[1..][k] == cts[k + 1] && cs[1..][k] == cs[k + 1];
        }
      }
      assert cts[1..][|cts[1..]| - 1] == cts[|cts| - 1];
      ScanConditionsRoundTrip(tokens, cts[1..], cs[1..], extra, at + |cts[0]|, num, acc + [cs[0]]);
      ConsAppend(acc, cs);
    } else {
      assert cs == [cs[0]];
    }
  }

  /** Writing NUM conditions as tokens and reading them back gives the same
      conditions, and tokens after the last condition are ignored (as long
      as they cannot be mistaken for the last condition's `p3`). */
  lemma {:induction false} EventLineRoundTrip(idKey: string, cs: seq<EventCondition>, extra: seq<string>, n: nat)
    requires AllP3NotInt(cs)
    requires cs == [] ==> extra == []
    requires cs != [] && extra != [] && cs[|cs| - 1].p3.None? ==> IsIntLike(extra[0])
    ensures EventLine(idKey, [IntToString(|cs|)] + ConditionsTokens(cs) + extra, n)
      == Ok(EventRow(idKey, |cs|, cs, SourceLoc(Events, n)))
  {
    var values := [IntToString(|cs|)] + ConditionsTokens(cs) + extra;
    ParseIntOfIntToString(|cs|);
    TailOfCons(IntToString(|cs|), ConditionsTokens(cs), extra);
    if cs != [] {
      var cts := seq(|cs|, i requires 0 <= i < |cs| => ConditionTokens(cs[i]));
      forall k | 0 <= k < |cs| ensures Writes(cts[k], cs[k]) {
        ConditionTokensWrite(cs[k]);
      }
      ScanConditionsRoundTrip(values[1..], cts, cs, extra, 0, |cs|, []);
      assert [] + cs == cs;
    }
    EventLineOfScan(idKey, values, n, cs);
  }

  lemma {:induction false} EventLineOfScan(idKey: string, values: seq<string>, n: nat, cs: seq<EventCondition>)
    requires values != [] && ParseInt(values[0]) == Some(|cs|)
    requires ScanConditions(values[1..], values[1..], 0, |cs|, []) == Ok(cs)
    ensures EventLine(idKey, values, n) == Ok(EventRow(idKey, |cs|, cs, SourceLoc(Events, n)))
  {
  }

  // ------------------------------------------------------- action lines

  lemma {:induction false} ScanChunksShape(rest: seq<string>, left: nat, acc: seq<ActionEntry>)
    requires |rest| == 8 * left
    requires forall k :: 0 <= k < |acc| ==> |acc[k].params| == 7
    ensures ScanChunks(rest, left, acc).Ok? ==>
      var es := ScanChunks(rest, left, acc).value;
      |es| == |acc| + left && es[..|acc|] == acc &&
      forall k :: 0 <= k < |es| ==> |es[k].params| == 7
    decreases left
  {
    if left > 0 {
      match ParseInt(rest[0])
      case None =>
      case Some(code) =>
        var acc' := acc + [EntryOfChunk(code, rest[..8])];
        ScanChunksShape(rest[8..], left - 1, acc');
        if ScanChunks(rest, left, acc).Ok? {
          var es := ScanChunks(rest, left, acc).value;
          assert es[..|acc'|] == acc';
          assert es[..|acc|] == acc'[..|acc|] == acc;
        }
    }
  }

  /** An accepted action line holds exactly NUM actions of seven parameters
      each, read from exactly `8 * NUM` tokens after NUM. */
  lemma {:induction false} ActionLineShape(idKey: string, values: seq<string>, n: nat)
    ensures ActionLine(idKey, values, n).Ok? ==>
      var row := ActionLine(idKey, values, n).value;
      row.id == idKey && row.num >= 0 && |row.actions| == row.num &&
      |values| == 1 + 8 * row.num && Some(row.num) == ParseInt(values[0]) &&
      forall k :: 0 <= k < |row.actions| ==> |row.actions[k].params| == 7
  {
    if values != [] && ParseInt(values[0]).Some? {
      var num := ParseInt(values[0]).value;
      if |values[1..]| == num * 8 {
        ScanChunksShape(values[1..], num, []);
      }
    }
  }

  /** The tokens one action is written as: its code, then its parameters. */
  function ActionTokens(e: ActionEntry): seq<string> {
    [IntToString(e.actId)] + TokenTexts(e.params)
  }

  function TokenTexts(ts: seq<Token>): (r: seq<string>)
    ensures |r| == |ts| && forall i :: 0 <= i < |ts| ==> r[i] == TokenText(ts[i])
  {
    if ts == [] then [] else [TokenText(ts[0])] + TokenTexts(ts[1..])
  }

  function ActionsTokens(es: seq<ActionEntry>): seq<string> {
    if es == [] then [] else ActionTokens(es[0]) + ActionsTokens(es[1..])
  }

  predicate WritableAction(e: ActionEntry) {
    |e.params| == 7 && forall i :: 0 <= i < 7 ==> Rereadable(e.params[i])
  }

  lemma {:induction false} EntryOfActionTokens(e: ActionEntry)
    requires WritableAction(e)
    ensures |ActionTokens(e)| == 8
    ensures EntryOfChunk(e.actId, ActionTokens(e)) == e
  {
    var t := ActionTokens(e);
    var ps := seq(7, i requires 0 <= i < 7 => ToIntOrStr(t[i + 1]));
    forall i | 0 <= i < 7
      ensures ps[i] == e.params[i]
    {
      assert t[i + 1] == TokenText(e.params[i]);
      ToIntOrStrOfTokenText(e.params[i]);
    }
  }

  lemma {:induction false} ActionsTokensLength(es: seq<ActionEntry>)
    requires forall k :: 0 <= k < |es| ==> WritableAction(es[k])
    ensures |ActionsTokens(es)| == 8 * |es|
  {
    if es != [] {
      EntryOfActionTokens(es[0]);
      ActionsTokensLength(es[1..]);
    }
  }

  /** One action's tokens, in front of the rest: one step of the chunk scan. */
  lemma {:induction false} ScanChunksStep(e: ActionEntry, post: seq<string>, left: nat, acc: seq<ActionEntry>)
    requires WritableAction(e) && |post| == 8 * left
    ensures |ActionTokens(e) + post| == 8 * (left + 1)
    ensures ScanChunks(ActionTokens(e) + post, left + 1, acc) == ScanChunks(post, left, acc + [e])
  {
    EntryOfActionTokens(e);
    ParseIntOfIntToString(e.actId);
    var rest := ActionTokens(e) + post;
    assert rest[..8] == ActionTokens(e) && rest[8..] == post;
  }

  lemma {:induction false} ScanChunksRoundTrip(es: seq<ActionEntry>, acc: seq<ActionEntry>)
    requires forall k :: 0 <= k < |es| ==> WritableAction(es[k])
    ensures |ActionsTokens(es)| == 8 * |es|
    ensures ScanChunks(ActionsTokens(es), |es|, acc) == Ok(acc + es)
    decreases |es|
  {
    ActionsTokensLength(es);
    if es == [] {
      assert acc + es == acc;
    } else {
      ActionsTokensLength(es[1..]);
      ScanChunksStep(es[0], ActionsTokens(es[1..]), |es| - 1, acc);
      ScanChunksRoundTrip(es[1..], acc + [es[0]]);
      ConsAppend(acc, es);
    }
  }

  /** Writing actions as `NUM, code, p1..p7, ...` and reading them back gives
      the same actions, for parameters that survive `_to_int_or_str`. */
  lemma {:induction false} ActionLineRoundTrip(idKey: string, es: seq<ActionEntry>, n: nat)
    requires forall k :: 0 <= k < |es| ==> WritableAction(es[k])
    ensures ActionLine(idKey, [IntToString(|es|)] + ActionsTokens(es), n)
      == Ok(ActionRow(idKey, |es|, es, SourceLoc(Actions, n)))
  {
    var values := [IntToString(|es|)] + ActionsTokens(es);
    assert values == [IntToString(|es|)] + ActionsTokens(es) + [];
    ParseIntOfIntToString(|es|);
    TailOfCons(IntToString(|es|), ActionsTokens(es), []);
    assert ActionsTokens(es) + [] == ActionsTokens(es);
    ScanChunksRoundTrip(es, []);
    assert [] + es == es;
    ActionLineOfScan(idKey, values, n, es);
  }

  lemma {:induction false} ActionLineOfScan(idKey: string, values: seq<string>, n: nat, es: seq<ActionEntry>)
    requires values != [] && ParseInt(values[0]) == Some(|es|) && |values[1..]| == 8 * |es|
    requires ScanChunks(values[1..], |es|, []) == Ok(es)
    ensures ActionLine(idKey, values, n) == Ok(ActionRow(idKey, |es|, es, SourceLoc(Actions, n)))
  {
  }

  // ----------------------------------------------------- variable lines

  /** An accepted variable line has an initial value of 0 or 1. */
  lemma {:induction false} VariableLineShape(line: string, n: nat)
    ensures VariableLine(line, n).Ok? ==>
      var row := VariableLine(line, n).value;
      (row.initial == 0 || row.initial == 1) && row.source == SourceLoc(VariableNames, n)
  {
  }

  /** `<id>=<name>,<flag>` reads back as that variable, whatever commas or
      `=` signs the name holds. */
  lemma {:induction false} VariableLineRoundTrip(id: nat, name: string, flag: nat, n: nat)
    requires flag <= 1 && Strip(name) == name
    ensures VariableLine(NatToString(id) + "=" + (name + "," + [DigitChar(flag)]), n)
      == Ok(LocalVarRow(id, name, flag, SourceLoc(VariableNames, n)))
  {
    var digits := NatToString(id);
    var tail := name + "," + [DigitChar(flag)];
    var line := digits + "=" + tail;
    VariableHead(digits, tail);
    VariableTail(name, flag);
    IntLikeStripped(digits);
    DigitsValueOfNatToString(id);
    VariableLineOfParts(line, n, |digits|, |name|);
  }

  /** The digits before the first `=` are the head; the rest follows it. */
  lemma {:induction false} VariableHead(digits: string, tail: string)
    requires IsDigits(digits)
    ensures var line := digits + "=" + tail;
      IndexOf(line, '=') == |digits| && line[..|digits|] == digits && line[|digits| + 1..] == tail
  {
    var line := digits + "=" + tail;
    assert line[|digits|] == '=';
    forall i | 0 <= i < |digits| ensures line[i] != '=' {
      assert line[i] == digits[i] && IsDigit(digits[i]);
    }
    IndexOfIs(line, '=', |digits|);
    assert line[..|digits|] == digits;
    assert line[|digits| + 1..] == tail;
  }

  /** The last comma of `name,F` is the one before the flag. */
  lemma {:induction false} VariableTail(name: string, flag: nat)
    requires flag <= 1
    ensures var rest := name + "," + [DigitChar(flag)];
      LastIndexOf(rest, ',') == |name| && rest[..|name|] == name &&
      Strip(rest[|name| + 1..]) == (if flag == 0 then "0" else "1")
  {
    var rest := name + "," + [DigitChar(flag)];
    assert rest[|name|] == ',' && rest[|name| + 1] == DigitChar(flag) && |rest| == |name| + 2;
    LastIndexOfIs(rest, ',', |name|);
    assert rest[..|name|] == name;
    assert rest[|name| + 1..] == [DigitChar(flag)];
    StripKeepsSpaceFree([DigitChar(flag)]);
  }

  lemma {:induction false} VariableLineOfParts(line: string, n: nat, e: nat, c: nat)
    requires e < |line| && IndexOf(line, '=') == e
    requires IsDigits(line[..e]) && Strip(line[..e]) == line[..e]
    requires c < |line[e + 1..]| && LastIndexOf(line[e + 1..], ',') == c
    requires Strip(line[e + 1..][..c]) == line[e + 1..][..c]
    requires var f := Strip(line[e + 1..][c + 1..]); f == "0" || f == "1"
    ensures VariableLine(line, n) == Ok(LocalVarRow(DigitsValue(line[..e]), line[e + 1..][..c],
      if Strip(line[e + 1..][c + 1..]) == "0" then 0 else 1, SourceLoc(VariableNames, n)))
  {
  }

  // ------------------------------------------------------ line machine

  /** Comment and blank lines change nothing, not even the section. */
  lemma {:induction false} CommentLineInert(st: ParserState, n: nat, raw: string)
    requires IsCommentOrBlank(Strip(raw))
    ensures Step(st, n, raw) == st
  {
  }

  /** Data lines before any recognised header are ignored. */
  lemma {:induction false} NoSectionInert(st: ParserState, n: nat, raw: string)
    requires st.section.None? && !IsHeader(Strip(raw))
    ensures Step(st, n, raw) == st
  {
  }

  /** A header line only switches the section; an unknown name switches
      parsing off until the next known header. */
  lemma {:induction false} HeaderSwitchesSection(st: ParserState, n: nat, raw: string)
    requires !IsCommentOrBlank(Strip(raw)) && IsHeader(Strip(raw))
    ensures Step(st, n, raw).out == st.out
    ensures Step(st, n, raw).section == SectionOf(HeaderName(Strip(raw)))
  {
  }

  lemma {:induction false} PrefixOfAppend(a: string, b: string)
    ensures StartsWith(a + b, a)
  {
    assert (a + b)[..|a|] == a;
  }

  /** Every error text starts with `<section>:<line>: ` for its own line. */
  lemma {:induction false} ErrorTextTagged(e: ParseError)
    ensures StartsWith(e.Text(), Tag(e.section, e.line))
  {
    match e
    case MissingEq(s, n, raw) => PrefixOfAppend(Tag(s, n), "missing '=' -> " + raw);
    case BadLine(s, n, f, raw) => PrefixOfAppend(Tag(s, n), Message(f) + " | line='" + raw + "'");
  }

  /** `b` is `a` with exactly one error appended, naming section `sec`,
      line `n` and the raw line. */
  ghost predicate OneErrorAdded(a: Parsed, b: Parsed, sec: Section, n: nat, raw: string) {
    |b.errors| == |a.errors| + 1 &&
    b == a.(errors := a.errors + [b.errors[|a.errors|]]) &&
    b.errors[|a.errors|].section == sec && b.errors[|a.errors|].line == n &&
    b.errors[|a.errors|].raw == raw
  }

  lemma {:induction false} KeyedLineErrors(out: Parsed, sec: Section, n: nat, raw: string, idKey: string, values: seq<string>)
    ensures var r := KeyedLine(out, sec, n, raw, idKey, values);
      r.errors == out.errors || OneErrorAdded(out, r, sec, n, raw)
  {
    match sec
    case Triggers =>
      var r := TriggerLine(idKey, values, n);
    case Events =>
      var r := EventLine(idKey, values, n);
    case Actions =>
      var r := ActionLine(idKey, values, n);
    case VariableNames =>
  }

  lemma {:induction false} VariableDataLineErrors(out: Parsed, n: nat, raw: string, line: string)
    ensures var r := VariableDataLine(out, n, raw, line);
      r.errors == out.errors || OneErrorAdded(out, r, VariableNames, n, raw)
  {
  }

  lemma {:induction false} DataLineErrors(out: Parsed, sec: Section, n: nat, raw: string)
    ensures var r := DataLine(out, sec, n, raw);
      r.errors == out.errors || OneErrorAdded(out, r, sec, n, raw)
  {
    var line := Strip(raw);
    if '=' in line {
      if sec == VariableNames {
        VariableDataLineErrors(out, n, raw, line);
      } else {
        var e := IndexOf(line, '=');
        KeyedLineErrors(out, sec, n, raw, Strip(line[..e]), SplitCsv(line[e + 1..]));
      }
    }
  }

  /** One line adds at most one error, and that error names the line and
      the active section; a line that adds an error stores no record. */
  lemma {:induction false} StepErrors(st: ParserState, n: nat, raw: string)
    ensures var out := Step(st, n, raw).out;
      out.errors == st.out.errors ||
      (st.section.Some? && OneErrorAdded(st.out, out, st.section.value, n, raw))
  {
    if st.section.Some? {
      DataLineErrors(st.out, st.section.value, n, raw);
    }
  }

  /** `after` keeps `before` as a prefix and adds at most `count` errors,
      each naming one of the lines `lo` to `lo + count - 1`. */
  ghost predicate ErrorsGrow(before: seq<ParseError>, after: seq<ParseError>, lo: nat, count: nat) {
    |before| <= |after| <= |before| + count &&
    after[..|before|] == before &&
    forall k :: |before| <= k < |after| ==> lo <= after[k].line < lo + count
  }

  lemma {:induction false} ErrorsGrowTrans(a: seq<ParseError>, b: seq<ParseError>, c: seq<ParseError>, lo: nat, n1: nat, n2: nat)
    requires ErrorsGrow(a, b, lo, n1) && ErrorsGrow(b, c, lo + n1, n2)
    ensures ErrorsGrow(a, c, lo, n1 + n2)
  {
    assert c[..|a|] == c[..|b|][..|a|];
  }

  /** Keeping the errors, or adding one that names line `n`, grows them by
      at most one error on that line. */
  lemma {:induction false} GrowByOne(a: Parsed, b: Parsed, sec: Section, n: nat, raw: string)
    requires b.errors == a.errors || OneErrorAdded(a, b, sec, n, raw)
    ensures ErrorsGrow(a.errors, b.errors, n, 1)
  {
    if b.errors != a.errors {
      assert b.errors == a.errors + [b.errors[|a.errors|]];
      assert b.errors[..|a.errors|] == a.errors;
    } else {
      assert b.errors[..|a.errors|] == a.errors;
    }
  }

  lemma {:induction false} StepErrorsPrefix(st: ParserState, n: nat, raw: string)
    ensures ErrorsGrow(st.out.errors, Step(st, n, raw).out.errors, n, 1)
  {
    var out := Step(st, n, raw).out;
    StepErrors(st, n, raw);
    if out.errors != st.out.errors {
      GrowByOne(st.out, out, st.section.value, n, raw);
    } else {
      GrowByOne(st.out, out, Triggers, n, raw);
    }
  }

  /** Over a whole run, earlier errors are kept, at most one error is added
      per line, and every new error names one of the lines read. */
  lemma {:induction false} RunErrors(lines: seq<string>, n: nat, st: ParserState)
    ensures ErrorsGrow(st.out.errors, Run(lines, n, st).out.errors, n, |lines|)
    decreases |lines|
  {
    if lines == [] {
      assert st.out.errors[..|st.out.errors|] == st.out.errors;
    } else {
      var st1 := Step(st, n, lines[0]);
      StepErrorsPrefix(st, n, lines[0]);
      RunErrors(lines[1..], n + 1, st1);
      ErrorsGrowTrans(st.out.errors, st1.out.errors, Run(lines, n, st).out.errors, n, 1, |lines| - 1);
    }
  }

  /** Every record the parser stores is well formed and filed under its own key. */
  ghost predicate WellFormed(p: Parsed) {
    TriggersFiled(p.triggers) && EventsFiled(p.events) && ActionsFiled(p.actions) && LocalsFiled(p.locals)
  }

  ghost predicate TriggersFiled(m: map<string, TriggerRow>) {
    forall k :: k in m ==> m[k].id == k
  }

  ghost predicate EventsFiled(m: map<string, EventRow>) {
    forall k :: k in m ==> m[k].id == k && m[k].num == |m[k].conditions|
  }

  ghost predicate ActionsFiled(m: map<string, ActionRow>) {
    forall k :: k in m ==>
      m[k].id == k && m[k].num == |m[k].actions| &&
      forall i :: 0 <= i < |m[k].actions| ==> |m[k].actions[i].params| == 7
  }

  ghost predicate LocalsFiled(m: map<string, LocalVarRow>) {
    forall k :: k in m ==> k == IntToString(m[k].id) && (m[k].initial == 0 || m[k].initial == 1)
  }

  lemma {:induction false} TriggerLineWellFormed(out: Parsed, n: nat, raw: string, idKey: string, values: seq<string>)
    requires WellFormed(out)
    ensures WellFormed(KeyedLine(out, Triggers, n, raw, idKey, values))
  {
    TriggerLineAccepts(idKey, values, n);
  }

  lemma {:induction false} EventLineWellFormed(out: Parsed, n: nat, raw: string, idKey: string, values: seq<string>)
    requires WellFormed(out)
    ensures WellFormed(KeyedLine(out, Events, n, raw, idKey, values))
  {
    EventLineShape(idKey, values, n);
  }

  lemma {:induction false} ActionLineWellFormed(out: Parsed, n: nat, raw: string, idKey: string, values: seq<string>)
    requires WellFormed(out)
    ensures WellFormed(KeyedLine(out, Actions, n, raw, idKey, values))
  {
    ActionLineShape(idKey, values, n);
  }

  lemma {:induction false} VariableLineWellFormed(out: Parsed, n: nat, raw: string, line: string)
    requires WellFormed(out)
    ensures WellFormed(VariableDataLine(out, n, raw, line))
  {
    VariableLineShape(line, n);
  }

  lemma {:induction false} DataLineWellFormed(out: Parsed, sec: Section, n: nat, raw: string)
    requires WellFormed(out)
    ensures WellFormed(DataLine(out, sec, n, raw))
  {
    var line := Strip(raw);
    if '=' !in line {
      assert DataLine(out, sec, n, raw) == AddError(out, MissingEq(sec, n, raw));
    } else if sec == VariableNames {
      assert DataLine(out, sec, n, raw) == VariableDataLine(out, n, raw, line);
      VariableLineWellFormed(out, n, raw, line);
    } else {
      var e := IndexOf(line, '=');
      var idKey, values := Strip(line[..e]), SplitCsv(line[e + 1..]);
      assert DataLine(out, sec, n, raw) == KeyedLine(out, sec, n, raw, idKey, values);
      match sec
      case Triggers => TriggerLineWellFormed(out, n, raw, idKey, values);
      case Events => EventLineWellFormed(out, n, raw, idKey, values);
      case Actions => ActionLineWellFormed(out, n, raw, idKey, values);
    }
  }

  lemma {:induction false} StepWellFormed(st: ParserState, n: nat, raw: string)
    requires WellFormed(st.out)
    ensures WellFormed(Step(st, n, raw).out)
  {
    if st.section.Some? {
      DataLineWellFormed(st.out, st.section.value, n, raw);
    }
  }

  /** The parse of a whole text keeps every record well formed. */
  lemma {:induction false} RunWellFormed(lines: seq<string>, n: nat, st: ParserState)
    requires WellFormed(st.out)
    ensures WellFormed(Run(lines, n, st).out)
    decreases |lines|
  {
    if lines != [] {
      StepWellFormed(st, n, lines[0]);
      RunWellFormed(lines[1..], n + 1, Step(st, n, lines[0]));
    }
  }

  /** `parse_map_text`: every stored record is well formed, and the text
      yields at most one error per line, each naming a line of the text. */
  lemma {:induction false} ParseTextSound(text: string)
    ensures WellFormed(ParseText(text))
    ensures |ParseText(text).errors| <= |SplitLines(text)|
    ensures forall k :: 0 <= k < |ParseText(text).errors| ==>
      1 <= ParseText(text).errors[k].line <= |SplitLines(text)|
  {
    var init := ParserState(None, EmptyParsed);
    RunWellFormed(SplitLines(text), 1, init);
    RunErrors(SplitLines(text), 1, init);
  }
}
