/** The section parser of a map file: a single pass over the lines that tracks
    the active section and turns each data line of [Triggers], [Events],
    [Actions] and [VariableNames] into a typed record, or into exactly one
    error string when the line is malformed.  The two copies of the parser in
    the repository share this model; they differ only in where they write
    their output files. */
module MapParser {
  import opened Wrappers
  import opened Text

  // ------------------------------------------------------------ data model

  datatype Section = Triggers | Events | Actions | VariableNames

  function SectionName(s: Section): string {
    match s
    case Triggers => "Triggers"
    case Events => "Events"
    case Actions => "Actions"
    case VariableNames => "VariableNames"
  }

  /** The header names that select a section; every other name clears it. */
  function SectionOf(name: string): (r: Option<Section>)
    ensures r.Some? ==> SectionName(r.value) == name
    ensures (exists s :: SectionName(s) == name) ==> r.Some?
  {
    if name == "Triggers" then Some(Triggers)
    else if name == "Events" then Some(Events)
    else if name == "Actions" then Some(Actions)
    else if name == "VariableNames" then Some(VariableNames)
    else None
  }

  datatype SourceLoc = SourceLoc(section: Section, line: nat)

  /** An action parameter after `_to_int_or_str`: an integer or a string. */
  datatype Token = IntTok(i: int) | StrTok(s: string)

  datatype TriggerRow = TriggerRow(
    id: string, house: string, linkedTrigger: Option<string>, name: string,
    disabled: int, easy: int, normal: int, hard: int, persistence: int,
    source: SourceLoc)

  datatype EventCondition = EventCondition(condId: int, p1: int, p2: int, p3: Option<string>)

  datatype EventRow = EventRow(id: string, num: int, conditions: seq<EventCondition>, source: SourceLoc)

  /** One action: its code and its seven parameters `p1` to `p7`. */
  datatype ActionEntry = ActionEntry(actId: int, params: seq<Token>)

  datatype ActionRow = ActionRow(id: string, num: int, actions: seq<ActionEntry>, source: SourceLoc)

  datatype LocalVarRow = LocalVarRow(id: nat, name: string, initial: int, source: SourceLoc)

  /** The abstract value of a `ParseResult`. */
  datatype Parsed = Parsed(
    triggers: map<string, TriggerRow>, events: map<string, EventRow>,
    actions: map<string, ActionRow>, locals: map<string, LocalVarRow>,
    errors: seq<ParseError>)

  const EmptyParsed := Parsed(map[], map[], map[], map[], [])

  // ------------------------------------------------------------ tokenising

  predicate IsEightDigitId(tok: string) {
    |tok| == 8 && IsDigits(tok)
  }

  /** `_to_int_or_str`: an exactly-8-digit token stays a string so that its
      leading zeros survive; any other signed integer token becomes an int;
      everything else stays a (stripped) string. */
  function ToIntOrStr(tok: string): Token {
    var t := Strip(tok);
    if IsEightDigitId(t) then StrTok(t)
    else match ParseInt(t)
      case Some(n) => IntTok(n)
      case None => StrTok(t)
  }

  /** The three outcomes of `_to_int_or_str`. */
  lemma {:induction false} ToIntOrStrCases(tok: string)
    ensures IsEightDigitId(Strip(tok)) ==> ToIntOrStr(tok) == StrTok(Strip(tok))
    ensures ToIntOrStr(tok).IntTok? <==> IsIntLike(Strip(tok)) && !IsEightDigitId(Strip(tok))
    ensures ToIntOrStr(tok).IntTok? ==> ParseInt(Strip(tok)) == Some(ToIntOrStr(tok).i)
    ensures ToIntOrStr(tok).StrTok? ==> ToIntOrStr(tok).s == Strip(tok)
  {
  }

  /** The text a token is written as in a map file. */
  function TokenText(t: Token): string {
    match t
    case IntTok(n) => IntToString(n)
    case StrTok(s) => s
  }

  /** Tokens that survive a write-then-read: an int never prints as eight
      digits, and a string is stripped and is either not integer-shaped or
      an 8-digit id. */
  predicate Rereadable(t: Token) {
    match t
    case IntTok(n) => !(10000000 <= n <= 99999999)
    case StrTok(s) => Strip(s) == s && (IsIntLike(s) ==> IsEightDigitId(s))
  }

  /** `_to_int_or_str` reads back every re-readable token from its text. */
  lemma {:induction false} ToIntOrStrOfTokenText(t: Token)
    requires Rereadable(t)
    ensures ToIntOrStr(TokenText(t)) == t
  {
    match t
    case IntTok(n) =>
      var s := IntToString(n);
      IntLikeStripped(s);
      ParseIntOfIntToString(n);
      if n >= 0 {
        NatToStringLength(n, 7);
        NatToStringLength(n, 8);
        assert Pow10(8) == 100000000 && Pow10(7) == 10000000;
        assert !IsEightDigitId(s);
      } else {
        assert s[0] == '-';
      }
    case StrTok(s) =>
  }

  // ---------------------------------------------------------------- errors

  /** Why a line parser rejected a line; `Message` renders the text the
      parser raises for it. */
  datatype LineFault =
    | BadVariableLine(line: string)
    | TriggerFieldCount(values: seq<string>)
    | TriggerBadInts(fields: seq<string>)
    | EventsMissingNum
    | EventsNumNotInt(tok: string)
    | TripletIncomplete(at: nat, rest: seq<string>)
    | BadTriplet(triplet: seq<string>, tokens: seq<string>)
    | ConditionCountMismatch(num: int, parsed: nat, tokens: seq<string>)
    | ActionsMissingNum
    | ActionsNumNotInt(tok: string)
    | ActionTokenCount(num: int, got: nat)
    | ActionIdNotInt(tok: string)

  /** The single quotes a message writes around one token (`'{tok}'` in
      the f-string, not `repr`, so nothing is escaped). */
  function Quote(s: string): string { "'" + s + "'" }

  /** `repr` of each string, in order. */
  function ReprAll(ps: seq<string>): (r: seq<string>)
    ensures |r| == |ps|
    ensures forall i :: 0 <= i < |ps| ==> r[i] == PyStrRepr(ps[i])
  {
    if ps == [] then [] else [PyStrRepr(ps[0])] + ReprAll(ps[1..])
  }

  /** Python's `str()` of a list of strings: the `repr` of each element,
      separated by commas, between brackets. */
  function ListText(ps: seq<string>): string {
    "[" + Join(ReprAll(ps), ", ") + "]"
  }

  function Message(f: LineFault): string {
    match f
    case BadVariableLine(line) => "Bad VariableNames line: " + Quote(line)
    case TriggerFieldCount(values) =>
      "Triggers expects 8 fields, got " + IntToString(|values|) + ": " + ListText(values)
    case TriggerBadInts(fields) => "Bad integer fields in Triggers: " + ListText(fields)
    case EventsMissingNum => "Events line missing NUM/values"
    case EventsNumNotInt(tok) => "Events NUM must be int, got " + Quote(tok)
    case TripletIncomplete(at, rest) =>
      "Events condition triplet incomplete near tokens[" + IntToString(at) + "]: " + ListText(rest)
    case BadTriplet(triplet, tokens) =>
      "Bad condition numeric triplet: " + ListText(triplet) + " in events tokens=" + ListText(tokens)
    case ConditionCountMismatch(num, parsed, tokens) =>
      "Events NUM=" + IntToString(num) + " but parsed " + IntToString(parsed)
      + " conditions. tokens=" + ListText(tokens)
    case ActionsMissingNum => "Actions line missing NUM/values"
    case ActionsNumNotInt(tok) => "Actions NUM must be int, got " + Quote(tok)
    case ActionTokenCount(num, got) =>
      "Actions expects " + IntToString(num * 8) + " tokens after NUM for " + IntToString(num)
      + " actions, got " + IntToString(got)
    case ActionIdNotInt(tok) => "Action ID must be int, got " + Quote(tok)
  }

  /** One entry of `ParseResult.errors`: the section and 1-based line it
      came from, the raw line, and either a missing `=` or the fault the
      line parser reported. */
  datatype ParseError =
    | MissingEq(section: Section, line: nat, raw: string)
    | BadLine(section: Section, line: nat, fault: LineFault, raw: string)
  {
    /** The text the parser appends to its error list. */
    function Text(): string {
      match this
      case MissingEq(s, n, raw) => Tag(s, n) + ("missing '=' -> " + raw)
      case BadLine(s, n, f, raw) => Tag(s, n) + (Message(f) + " | line='" + raw + "'")
    }
  }

  /** The prefix every error text carries: `<section>:<line>: `. */
  function Tag(s: Section, lineNo: nat): string {
    SectionName(s) + ":" + IntToString(lineNo) + ": "
  }

  // ----------------------------------------------------- the line parsers

  /** `_parse_variable_line`: the stripped line must match
      `^\s*(\d+)\s*=\s*(.*?),\s*([01])\s*$`.  The digits end at the first `=`;
      the lazy name group ends at the last comma, since nothing after the
      matched comma may be a comma. */
  function VariableLine(line: string, lineNo: nat): (r: Result<LocalVarRow, LineFault>)
  {
    var bad := Err(BadVariableLine(line));
    var e := IndexOf(line, '=');
    if e == |line| then bad
    else
      var head := Strip(line[..e]);
      var rest := line[e + 1..];
      var c := LastIndexOf(rest, ',');
      if !IsDigits(head) || c == |rest| then bad
      else
        var flag := Strip(rest[c + 1..]);
        if flag != "0" && flag != "1" then bad
        else Ok(LocalVarRow(DigitsValue(head), Strip(rest[..c]), DigitValue(flag[0]),
                            SourceLoc(VariableNames, lineNo)))
  }

  /** `_parse_trigger_line`: exactly eight fields, the last five integers;
      `<none>` in any letter case means "no linked trigger". */
  function TriggerLine(idKey: string, values: seq<string>, lineNo: nat): (r: Result<TriggerRow, LineFault>)
  {
    if |values| != 8 then
      Err(TriggerFieldCount(values))
    else
      var linked := if Lower(values[1]) == "<none>" then None else Some(values[1]);
      match (ParseInt(values[3]), ParseInt(values[4]), ParseInt(values[5]),
             ParseInt(values[6]), ParseInt(values[7]))
      case (Some(d), Some(e), Some(n), Some(h), Some(p)) =>
        Ok(TriggerRow(idKey, values[0], linked, values[2], d, e, n, h, p,
                      SourceLoc(Triggers, lineNo)))
      case _ => Err(TriggerBadInts(values[3..]))
  }

  /** The condition loop of `_parse_event_line` over the tokens `rest` not
      yet consumed, which start at index `at` of `tokens`, with the
      conditions `acc` already collected: it stops at the end of the tokens,
      and fails when fewer than three tokens remain. */
  function ScanConditions(tokens: seq<string>, rest: seq<string>, at: nat, num: int, acc: seq<EventCondition>)
    : Result<seq<EventCondition>, LineFault>
    decreases |rest|, 1
  {
    if rest == [] then Ok(acc)
    else if |rest| < 3 then Err(TripletIncomplete(at, rest))
    else ScanCondition(tokens, rest, at, num, acc)
  }

  /** One pass of that loop: three integer tokens plus, when the next token
      is not integer-shaped, a `p3`; the scan stops as soon as `num`
      conditions are collected. */
  function ScanCondition(tokens: seq<string>, rest: seq<string>, at: nat, num: int, acc: seq<EventCondition>)
    : Result<seq<EventCondition>, LineFault>
    requires |rest| >= 3
    decreases |rest|, 0
  {
    match (ParseInt(rest[0]), ParseInt(rest[1]), ParseInt(rest[2]))
    case (Some(c), Some(a), Some(b)) =>
      var takeP3 := |rest| > 3 && !IsIntLike(rest[3]);
      var cond := EventCondition(c, a, b, if takeP3 then Some(rest[3]) else None);
      var used := if takeP3 then 4 else 3;
      if |acc + [cond]| == num then Ok(acc + [cond])
      else ScanConditions(tokens, rest[used..], at + used, num, acc + [cond])
    case _ =>
      Err(BadTriplet(rest[..3], tokens))
  }

  /** `_parse_event_line` as a value. */
  function EventLine(idKey: string, values: seq<string>, lineNo: nat): Result<EventRow, LineFault> {
    if values == [] then Err(EventsMissingNum)
    else match ParseInt(values[0])
      case None => Err(EventsNumNotInt(values[0]))
      case Some(num) =>
        var tokens := values[1..];
        match ScanConditions(tokens, tokens, 0, num, [])
        case Err(m) => Err(m)
        case Ok(conds) =>
          if |conds| != num then
            Err(ConditionCountMismatch(num, |conds|, tokens))
          else Ok(EventRow(idKey, num, conds, SourceLoc(Events, lineNo)))
  }

  /** `_parse_event_line`: the while loop that advances `i` over the tokens. */
  method ParseEventLine(idKey: string, values: seq<string>, lineNo: nat) returns (r: Result<EventRow, LineFault>)
    ensures r == EventLine(idKey, values, lineNo)
  {
    if values == [] {
      return Err(EventsMissingNum);
    }
    var parsedNum := ParseInt(values[0]);
    if parsedNum.None? {
      return Err(EventsNumNotInt(values[0]));
    }
    var num := parsedNum.value;
    var tokens := values[1..];
    var conditions: seq<EventCondition> := [];
    var i := 0;
    while i < |tokens|
      invariant i <= |tokens|
      invariant ScanConditions(tokens, tokens[i..], i, num, conditions) == ScanConditions(tokens, tokens, 0, num, [])
      decreases |tokens| - i
    {
      ghost var rest, start := tokens[i..], i;
      if i + 2 >= |tokens| {
        return Err(TripletIncomplete(i, tokens[i..]));
      }
      assert ScanConditions(tokens, rest, i, num, conditions) == ScanCondition(tokens, rest, i, num, conditions);
      var c, a, b := ParseInt(tokens[i]), ParseInt(tokens[i + 1]), ParseInt(tokens[i + 2]);
      assert rest[0] == tokens[i] && rest[1] == tokens[i + 1] && rest[2] == tokens[i + 2];
      if c.None? || a.None? || b.None? {
        assert rest[..3] == tokens[i..i + 3];
        return Err(BadTriplet(tokens[i..i + 3], tokens));
      }
      i := i + 3;
      var p3: Option<string> := None;
      if i < |tokens| && !IsIntLike(tokens[i]) {
        p3 := Some(tokens[i]);
        i := i + 1;
      }
      assert rest[i - start..] == tokens[i..];
      conditions := conditions + [EventCondition(c.value, a.value, b.value, p3)];
      if |conditions| == num {
        break;
      }
    }
    if |conditions| != num {
      return Err(ConditionCountMismatch(num, |conditions|, tokens));
    }
    r := Ok(EventRow(idKey, num, conditions, SourceLoc(Events, lineNo)));
  }

  /** The action read from one 8-token chunk whose code is `code`. */
  function EntryOfChunk(code: int, chunk: seq<string>): (e: ActionEntry)
    requires |chunk| == 8
    ensures e.actId == code && |e.params| == 7
  {
    ActionEntry(code, seq(7, i requires 0 <= i < 7 => ToIntOrStr(chunk[i + 1])))
  }

  /** The chunk loop of `_parse_action_line` over the tokens not yet
      consumed, with the entries `acc` already built: each 8-token chunk is
      an integer code and seven parameters. */
  function ScanChunks(rest: seq<string>, left: nat, acc: seq<ActionEntry>): Result<seq<ActionEntry>, LineFault>
    requires |rest| == 8 * left
    decreases left
  {
    if left == 0 then Ok(acc)
    else match ParseInt(rest[0])
      case None => Err(ActionIdNotInt(rest[0]))
      case Some(code) => ScanChunks(rest[8..], left - 1, acc + [EntryOfChunk(code, rest[..8])])
  }

  /** `_parse_action_line` as a value. */
  function ActionLine(idKey: string, values: seq<string>, lineNo: nat): Result<ActionRow, LineFault> {
    if values == [] then Err(ActionsMissingNum)
    else match ParseInt(values[0])
      case None => Err(ActionsNumNotInt(values[0]))
      case Some(num) =>
        var tokens := values[1..];
        if |tokens| != num * 8 then
          Err(ActionTokenCount(num, |tokens|))
        else
          assert num >= 0;
          match ScanChunks(tokens, num, [])
          case Err(m) => Err(m)
          case Ok(entries) => Ok(ActionRow(idKey, num, entries, SourceLoc(Actions, lineNo)))
  }

  /** `_parse_action_line`: the loop over the `num` chunks, advancing `j` by
      eight and stopping at the first bad action code.  (The source's
      "incomplete chunk" check cannot fire once the token count is
      `num * 8`, so it has no counterpart here.) */
  method ParseActionLine(idKey: string, values: seq<string>, lineNo: nat) returns (r: Result<ActionRow, LineFault>)
    ensures r == ActionLine(idKey, values, lineNo)
  {
    if values == [] {
      return Err(ActionsMissingNum);
    }
    var parsedNum := ParseInt(values[0]);
    if parsedNum.None? {
      return Err(ActionsNumNotInt(values[0]));
    }
    var num := parsedNum.value;
    var tokens := values[1..];
    var needed := num * 8;
    if |tokens| != needed {
      return Err(ActionTokenCount(num, |tokens|));
    }
    assert |tokens| == 8 * num && num >= 0;
    var actions: seq<ActionEntry> := [];
    var j := 0;
    var k := 0;
    while k < num
      invariant 0 <= k <= num && j == 8 * k
      invariant ScanChunks(tokens[j..], num - k, actions) == ScanChunks(tokens, num, [])
    {
      var chunk := tokens[j..j + 8];
      assert tokens[j..][..8] == chunk && tokens[j..][8..] == tokens[j + 8..];
      j := j + 8;
      var code := ParseInt(chunk[0]);
      if code.None? {
        return Err(ActionIdNotInt(chunk[0]));
      }
      actions := actions + [EntryOfChunk(code.value, chunk)];
      k := k + 1;
    }
    r := Ok(ActionRow(idKey, num, actions, SourceLoc(Actions, lineNo)));
  }

  // ------------------------------------------------------ the line machine

  /** `_comment_re`: blank, or a first non-blank character of `;`, `#` or `/`. */
  predicate IsCommentOrBlank(line: string) {
    var t := LStrip(line);
    t == [] || t[0] == ';' || t[0] == '#' || t[0] == '/'
  }

  predicate IsHeader(line: string) {
    StartsWith(line, "[") && EndsWith(line, "]") && ',' !in line
  }

  function HeaderName(line: string): string {
    Strip(StripChars(line, {'[', ']'}))
  }

  datatype ParserState = ParserState(section: Option<Section>, out: Parsed)

  /** One iteration of the loop in `parse_map_text`, for line number `n`:
      comments and blanks are skipped, a header switches the section, and a
      data line outside any section is ignored. */
  function Step(st: ParserState, n: nat, raw: string): ParserState {
    var line := Strip(raw);
    if IsCommentOrBlank(line) then st
    else if IsHeader(line) then st.(section := SectionOf(HeaderName(line)))
    else if st.section.None? then st
    else st.(out := DataLine(st.out, st.section.value, n, raw))
  }

  function AddError(out: Parsed, e: ParseError): Parsed {
    out.(errors := out.errors + [e])
  }

  /** A data line of section `sec`: either one record stored under its key,
      replacing any earlier one, or one error appended. */
  function DataLine(out: Parsed, sec: Section, n: nat, raw: string): Parsed {
    var line := Strip(raw);
    if '=' !in line then AddError(out, MissingEq(sec, n, raw))
    else if sec == VariableNames then VariableDataLine(out, n, raw, line)
    else
      var e := IndexOf(line, '=');
      KeyedLine(out, sec, n, raw, Strip(line[..e]), SplitCsv(line[e + 1..]))
  }

  /** A line of [VariableNames], stripped to `line`: the local is filed under
      its id's text. */
  function VariableDataLine(out: Parsed, n: nat, raw: string, line: string): Parsed {
    match VariableLine(line, n)
    case Ok(row) => out.(locals := out.locals[IntToString(row.id) := row])
    case Err(m) => AddError(out, BadLine(VariableNames, n, m, raw))
  }

  /** A `key=values` line of [Triggers], [Events] or [Actions]. */
  function KeyedLine(out: Parsed, sec: Section, n: nat, raw: string, idKey: string, values: seq<string>): Parsed {
    match sec
    case Triggers =>
      (match TriggerLine(idKey, values, n)
       case Ok(row) => out.(triggers := out.triggers[idKey := row])
       case Err(m) => AddError(out, BadLine(sec, n, m, raw)))
    case Events =>
      (match EventLine(idKey, values, n)
       case Ok(row) => out.(events := out.events[idKey := row])
       case Err(m) => AddError(out, BadLine(sec, n, m, raw)))
    case Actions =>
      (match ActionLine(idKey, values, n)
       case Ok(row) => out.(actions := out.actions[idKey := row])
       case Err(m) => AddError(out, BadLine(sec, n, m, raw)))
    case VariableNames => out
  }

  /** The loop of `parse_map_text` over `lines`, the first of them numbered `n`. */
  function Run(lines: seq<string>, n: nat, st: ParserState): ParserState
    decreases |lines|
  {
    if lines == [] then st else Run(lines[1..], n + 1, Step(st, n, lines[0]))
  }

  /** `parse_map_text` as a value: lines are numbered from 1. */
  function ParseText(text: string): Parsed {
    Run(SplitLines(text), 1, ParserState(None, EmptyParsed)).out
  }

  /** `ParseResult`: the record maps and the error list one parse fills in. */
  class ParseResult {
    var triggers: map<string, TriggerRow>
    var events: map<string, EventRow>
    var actions: map<string, ActionRow>
    var locals: map<string, LocalVarRow>
    var errors: seq<ParseError>

    constructor ()
      ensures Value() == EmptyParsed
    {
      triggers, events, actions, locals, errors := map[], map[], map[], map[], [];
    }

    function Value(): Parsed
      reads this
    {
      Parsed(triggers, events, actions, locals, errors)
    }

    /** The error list as the strings the parser reports. */
    function ErrorTexts(): (r: seq<string>)
      reads this
      ensures |r| == |errors|
      ensures forall i :: 0 <= i < |errors| ==> r[i] == errors[i].Text()
    {
      seq(|errors|, i reads this requires 0 <= i < |errors| => errors[i].Text())
    }
  }

  /** `parse_map_text`: one pass over the lines, updating the active section
      and storing each record or error into the result as it goes. */
  method ParseMapText(text: string) returns (res: ParseResult)
    ensures fresh(res)
    ensures res.Value() == ParseText(text)
  {
    res := new ParseResult();
    var section: Option<Section> := None;
    var lines := SplitLines(text);
    for idx := 0 to |lines|
      invariant Run(lines[idx..], idx + 1, ParserState(section, res.Value())) == Run(lines, 1, ParserState(None, EmptyParsed))
    {
      assert lines[idx..][1..] == lines[idx + 1..];
      var raw := lines[idx];
      var line := Strip(raw);
      if IsCommentOrBlank(line) {
        continue;
      }
      if IsHeader(line) {
        section := SectionOf(HeaderName(line));
        continue;
      }
      if section.None? {
        continue;
      }
      StoreDataLine(res, section.value, idx + 1, raw);
    }
  }

  /** The body of the `parse_map_text` loop for a data line inside a section. */
  method StoreDataLine(res: ParseResult, sec: Section, n: nat, raw: string)
    modifies res
    ensures res.Value() == DataLine(old(res.Value()), sec, n, raw)
  {
    var line := Strip(raw);
    if '=' !in line {
      res.errors := res.errors + [MissingEq(sec, n, raw)];
      return;
    }
    if sec == VariableNames {
      StoreVariableLine(res, n, raw, line);
    } else {
      var e := IndexOf(line, '=');
      StoreKeyedLine(res, sec, n, raw, Strip(line[..e]), SplitCsv(line[e + 1..]));
    }
  }

  /** A `[VariableNames]` line, stripped to `line`. */
  method StoreVariableLine(res: ParseResult, n: nat, raw: string, line: string)
    modifies res
    ensures res.Value() == VariableDataLine(old(res.Value()), n, raw, line)
  {
    var r := VariableLine(line, n);
    if r.Ok? {
      res.locals := res.locals[IntToString(r.value.id) := r.value];
    } else {
      res.errors := res.errors + [BadLine(VariableNames, n, r.error, raw)];
    }
  }

  /** A `key=values` line of [Triggers], [Events] or [Actions], split already. */
  method StoreKeyedLine(res: ParseResult, sec: Section, n: nat, raw: string, idKey: string, values: seq<string>)
    requires sec != VariableNames
    modifies res
    ensures res.Value() == KeyedLine(old(res.Value()), sec, n, raw, idKey, values)
  {
    if sec == Triggers {
      var r := TriggerLine(idKey, values, n);
      if r.Ok? {
        res.triggers := res.triggers[idKey := r.value];
      } else {
        res.errors := res.errors + [BadLine(sec, n, r.error, raw)];
      }
    } else if sec == Events {
      var r := ParseEventLine(idKey, values, n);
      if r.Ok? {
        res.events := res.events[idKey := r.value];
      } else {
        res.errors := res.errors + [BadLine(sec, n, r.error, raw)];
      }
    } else {
      var r := ParseActionLine(idKey, values, n);
      if r.Ok? {
        res.actions := res.actions[idKey := r.value];
      } else {
        res.errors := res.errors + [BadLine(sec, n, r.error, raw)];
      }
    }
  }
}
