/** The API key file of src/api_keys.rs: its printer and its line parser. */
module ApiKeys {
  import opened Common
  import opened Text

  datatype Entry = Entry(name: string, key: string)

  datatype ParseError =
    | ExpectedPair(line: nat)
    | NotQuoted(line: nat)
    | TrailingText(line: nat)
    | Unterminated(line: nat)
    | KeyEmpty(line: nat)
    | KeyControl(line: nat)
    | KeyMissing(before: nat)

  /* ---------- The two scanners ---------- */

  function Unescape(c: char): char {
    match c
    case 'n' => '\n'
    case 'r' => '\r'
    case 't' => '\t'
    case other => other
  }

  /** The text inside quotes from here on, or why there is none. */
  function Quoted(rest: string, escaped: bool, out: string, line: nat): Result<string, ParseError> {
    if rest == "" then Err(Unterminated(line))
    else if escaped then Quoted(rest[1..], false, out + [Unescape(rest[0])], line)
    else if rest[0] == '\\' then Quoted(rest[1..], true, out, line)
    else if rest[0] == '"' then (if Trim(rest[1..]) == "" then Ok(out) else Err(TrailingText(line)))
    else Quoted(rest[1..], false, out + [rest[0]], line)
  }

  function TomlString(value: string, line: nat): Result<string, ParseError> {
    if value == "" || value[0] != '"' then Err(NotQuoted(line)) else Quoted(value[1..], false, "", line)
  }

  method ParseTomlString(value: string, line: nat) returns (r: Result<string, ParseError>)
    ensures r == TomlString(value, line)
  {
    if value == "" || value[0] != '"' {
      return Err(NotQuoted(line));
    }
    var rest, out, escaped := value[1..], "", false;
    for i := 0 to |rest|
      invariant TomlString(value, line) == Quoted(rest[i..], escaped, out, line)
    {
      var c := rest[i];
      assert rest[i..][0] == c && rest[i..][1..] == rest[i + 1..];
      if escaped {
        out, escaped := out + [Unescape(c)], false;
      } else if c == '\\' {
        escaped := true;
      } else if c == '"' {
        return if Trim(rest[i + 1..]) == "" then Ok(out) else Err(TrailingText(line));
      } else {
        out := out + [c];
      }
    }
    return Err(Unterminated(line));
  }

  /** How much of a line stands before its comment. */
  function CodeLength(line: string, escaped: bool, inString: bool): (n: nat)
    ensures n <= |line|
  {
    if line == "" then 0
    else if escaped then 1 + CodeLength(line[1..], false, inString)
    else if line[0] == '\\' && inString then 1 + CodeLength(line[1..], true, inString)
    else if line[0] == '"' then 1 + CodeLength(line[1..], false, !inString)
    else if line[0] == '#' && !inString then 0
    else 1 + CodeLength(line[1..], false, inString)
  }

  method StripComment(line: string) returns (code: string)
    ensures code == line[..CodeLength(line, false, false)]
  {
    var escaped, inString := false, false;
    for i := 0 to |line|
      invariant CodeLength(line, false, false) == i + CodeLength(line[i..], escaped, inString)
    {
      var c := line[i];
      assert line[i..][0] == c && line[i..][1..] == line[i + 1..];
      if escaped {
        escaped := false;
      } else if c == '\\' && inString {
        escaped := true;
      } else if c == '"' {
        inString := !inString;
      } else if c == '#' && !inString {
        return line[..i];
      }
    }
    return line;
  }

  function Escape(value: string): string {
    if value == "" then ""
    else (match value[0]
          case '"' => "\\\""
          case '\\' => "\\\\"
          case '\n' => "\\n"
          case '\r' => "\\r"
          case '\t' => "\\t"
          case other => [other]) + Escape(value[1..])
  }

  /* ---------- The line parser ---------- */

  function NormalizedName(value: string): (name: string)
    ensures Tight(name)
    ensures name == value <==> Tight(value)
  {
    if Trim(value) == "" then "default" else Trim(value)
  }

  predicate ValidKey(key: string) {
    Trim(key) != "" && forall c :: c in key ==> !IsControl(c)
  }

  function ValidateKey(key: string, line: nat): Result<string, ParseError> {
    if Trim(key) == "" then Err(KeyEmpty(line))
    else if exists c :: c in key && IsControl(c) then Err(KeyControl(line))
    else Ok(key)
  }

  datatype State = State(entries: seq<Entry>, name: Option<string>, key: Option<string>)

  const START := State([], None, None)

  /** `finish_entry`: close the section being read. */
  function Finish(s: State, line: nat): Result<State, ParseError> {
    if s.key.Some? then
      Ok(State(s.entries + [Entry(if s.name.Some? then s.name.value else "default", s.key.value)], None, None))
    else if s.name.Some? then Err(KeyMissing(line))
    else Ok(s)
  }

  function ParseLine(s: State, raw: string, line: nat): Result<State, ParseError> {
    var code := Trim(raw[..CodeLength(raw, false, false)]);
    if code == "" then Ok(s)
    else if code == "[[keys]]" then Finish(s, line)
    else
      var pair := SplitOnce(code, '=');
      if pair.None? then Err(ExpectedPair(line))
      else
        var value := TomlString(Trim(pair.value.1), line);
        if value.Err? then Err(value.error)
        else if Trim(pair.value.0) == "name" then Ok(s.(name := Some(NormalizedName(value.value))))
        else if Trim(pair.value.0) == "key" then
          var key := ValidateKey(value.value, line);
          if key.Err? then Err(key.error) else Ok(s.(key := Some(key.value)))
        else Ok(s)
  }

  /** The state after all of `lines`, the first of which is line number `from`. */
  function ParseLines(s: State, lines: seq<string>, from: nat): Result<State, ParseError>
    decreases |lines|
  {
    if lines == [] then Ok(s)
    else
      var next := ParseLine(s, lines[0], from);
      if next.Err? then next else ParseLines(next.value, lines[1..], from + 1)
  }

  function Parse(text: string): Result<seq<Entry>, ParseError> {
    var read := ParseLines(START, Lines(text), 1);
    if read.Err? then Err(read.error)
    else
      var closed := Finish(read.value, |Lines(text)| + 1);
      if closed.Err? then Err(closed.error) else Ok(closed.value.entries)
  }

  method ParseApiKeysToml(text: string) returns (r: Result<seq<Entry>, ParseError>)
    ensures r == Parse(text)
  {
    var lines := Lines(text);
    var entries: seq<Entry>, currentName: Option<string>, currentKey: Option<string> := [], None, None;
    for index := 0 to |lines|
      invariant ParseLines(START, lines, 1)
        == ParseLines(State(entries, currentName, currentKey), lines[index..], index + 1)
    {
      var lineNo := index + 1;
      ghost var s := State(entries, currentName, currentKey);
      assert lines[index..][0] == lines[index] && lines[index..][1..] == lines[index + 1..];
      var code := StripComment(lines[index]);
      code := Trim(code);
      if code == "" {
        continue;
      }
      if code == "[[keys]]" {
        var closed := Finish(State(entries, currentName, currentKey), lineNo);
        if closed.Err? {
          return Err(closed.error);
        }
        entries, currentName, currentKey := closed.value.entries, None, None;
        continue;
      }
      var pair := SplitOnce(code, '=');
      if pair.None? {
        return Err(ExpectedPair(lineNo));
      }
      var field := Trim(pair.value.0);
      var value := ParseTomlString(Trim(pair.value.1), lineNo);
      if value.Err? {
        return Err(value.error);
      }
      if field == "name" {
        currentName := Some(NormalizedName(value.value));
      } else if field == "key" {
        var key := ValidateKey(value.value, lineNo);
        if key.Err? {
          return Err(key.error);
        }
        currentKey := Some(key.value);
      }
    }
    assert lines[|lines|..] == [];
    var closed := Finish(State(entries, currentName, currentKey), |lines| + 1);
    return if closed.Err? then Err(closed.error) else Ok(closed.value.entries);
  }

  /* ---------- The printer ---------- */

  function NameLine(name: string): string {
    Printed("name", name)
  }

  function KeyLine(key: string): string {
    Printed("key", key)
  }

  function Words(words: seq<string>): string {
    if words == [] then "" else words[0] + " " + Words(words[1..])
  }

  const PRIVATE_WORDS :=
    ["#", "Werk1112", "API", "keys.", "Keep", "this", "file", "private", "and", "do", "not", "commit"]
  const CLIENT_WORDS := ["#", "Clients", "must", "send:", "Authorization:", "Bearer"]

  /** The two comment lines a printed file starts with. */
  datatype Header = Header(first: string, second: string)

  const HEADER := Header(Words(PRIVATE_WORDS) + "it.", Words(CLIENT_WORDS) + "<key>")

  function SectionLines(h: Header, e: Entry): seq<string> {
    [h.first, h.second, "", "[[keys]]", NameLine(e.name), KeyLine(e.key)]
  }

  function FileText(h: Header, e: Entry): string {
    Unlines(SectionLines(h, e))
  }

  function ApiKeysFileText(e: Entry): string {
    FileText(HEADER, e)
  }

  /* ---------- The printer and the reader agree ---------- */

  lemma {:induction false} EscapeIsOneLine(v: string)
    ensures '\n' !in Escape(v)
  {
    if v != "" {
      EscapeIsOneLine(v[1..]);
    }
  }

  /** Outside a string, text without quote and comment signs is skipped. */
  lemma {:induction false} CodeLengthPlain(before: string, rest: string)
    requires '"' !in before && '#' !in before
    ensures CodeLength(before + rest, false, false) == |before| + CodeLength(rest, false, false)
  {
    if before == "" {
      assert before + rest == rest;
    } else {
      assert (before + rest)[0] == before[0] && (before + rest)[1..] == before[1..] + rest;
      CodeLengthPlain(before[1..], rest);
    }
  }

  /** The comment stripper leaves an escaped quoted value untouched. */
  lemma {:induction false} CodeLengthEscaped(v: string)
    ensures CodeLength(Escape(v) + "\"", false, true) == |Escape(v)| + 1
  {
    if v != "" {
      CodeLengthEscaped(v[1..]);
      var tail := Escape(v[1..]) + "\"";
      if |Escape(v)| == |Escape(v[1..])| + 2 {
        assert (Escape(v) + "\"")[0] == '\\' && (Escape(v) + "\"")[1..][1..] == tail;
      } else {
        assert (Escape(v) + "\"")[0] == v[0] && (Escape(v) + "\"")[1..] == tail;
      }
    }
  }

  /** The string reader inverts the escaping. */
  lemma {:induction false} QuotedEscaped(v: string, out: string, line: nat)
    ensures Quoted(Escape(v) + "\"", false, out, line) == Ok(out + v)
  {
    var text := Escape(v) + "\"";
    if v == "" {
      assert text == "\"" && out + v == out;
    } else {
      var tail := Escape(v[1..]) + "\"";
      QuotedEscaped(v[1..], out + [v[0]], line);
      assert out + [v[0]] + v[1..] == out + v;
      if |Escape(v)| == |Escape(v[1..])| + 2 {
        assert text[0] == '\\' && text[1..][1..] == tail && Unescape(text[1..][0]) == v[0];
      } else {
        assert text[0] == v[0] && text[1..] == tail;
      }
    }
  }

  function PrintedValue(v: string): string {
    "\"" + Escape(v) + "\""
  }

  function Printed(field: string, v: string): string {
    field + " = " + PrintedValue(v)
  }

  lemma PrintedIsCode(field: string, v: string)
    requires '"' !in field && '#' !in field
    ensures CodeLength(Printed(field, v), false, false) == |Printed(field, v)|
  {
    CodeLengthPlain(field + " = ", PrintedValue(v));
    CodeLengthEscaped(v);
    assert PrintedValue(v)[1..] == Escape(v) + "\"";
  }

  lemma PrintedSplits(field: string, v: string)
    requires '=' !in field
    ensures SplitOnce(Printed(field, v), '=') == Some((field + " ", " " + PrintedValue(v)))
  {
    assert Printed(field, v) == (field + " ") + ['='] + (" " + PrintedValue(v));
    SplitOnceAt(field + " ", '=', " " + PrintedValue(v));
  }

  lemma PrintedValueReads(v: string, line: nat)
    ensures TomlString(Trim(" " + PrintedValue(v)), line) == Ok(v)
  {
    assert (" " + PrintedValue(v))[1..] == PrintedValue(v);
    assert TrimStart(" " + PrintedValue(v)) == PrintedValue(v);
    assert PrintedValue(v)[1..] == Escape(v) + "\"";
    QuotedEscaped(v, "", line);
    assert "" + v == v;
  }

  lemma PrintedFieldReads(field: string)
    requires Tight(field)
    ensures Trim(field + " ") == field
  {
    var padded := field + " ";
    assert TrimStart(padded) == padded;
    assert padded[|padded| - 1] == ' ' && padded[..|padded| - 1] == field;
    assert TrimEnd(padded) == TrimEnd(field);
  }

  /** A printed `field = "value"` line reaches the reader as exactly that field and that value. */
  lemma PrintedLine(field: string, v: string, line: nat)
    requires Tight(field) && '"' !in field && '#' !in field && '=' !in field && '\n' !in field
    ensures var raw := Printed(field, v);
      && IsLine(raw)
      && Trim(raw[..CodeLength(raw, false, false)]) == raw
      && SplitOnce(raw, '=') == Some((field + " ", " " + PrintedValue(v)))
      && Trim(field + " ") == field
      && TomlString(Trim(" " + PrintedValue(v)), line) == Ok(v)
  {
    var raw := Printed(field, v);
    EscapeIsOneLine(v);
    PrintedIsCode(field, v);
    assert raw[..|raw|] == raw && raw[0] == field[0] && raw[|raw| - 1] == '"';
    PrintedSplits(field, v);
    PrintedFieldReads(field);
    PrintedValueReads(v, line);
  }

  lemma ParseNameLine(s: State, name: string, line: nat)
    ensures ParseLine(s, NameLine(name), line) == Ok(s.(name := Some(NormalizedName(name))))
    ensures IsLine(NameLine(name))
  {
    PrintedLine("name", name, line);
  }

  lemma ParseKeyLine(s: State, key: string, line: nat)
    ensures ParseLine(s, KeyLine(key), line)
         == (if ValidKey(key) then Ok(s.(key := Some(key))) else Err(ValidateKey(key, line).error))
    ensures IsLine(KeyLine(key))
  {
    PrintedLine("key", key, line);
  }

  /** Several printed files one after another. */
  function FileTexts(h: Header, es: seq<Entry>): string {
    if es == [] then "" else FileText(h, es[0]) + FileTexts(h, es[1..])
  }

  /** What a reader owes to a writer of `es`: the entries with normalized names, or the first unusable key. */
  function Reread(es: seq<Entry>, line: nat): Result<seq<Entry>, ParseError> {
    if es == [] then Ok([])
    else if !ValidKey(es[0].key) then Err(ValidateKey(es[0].key, line + 5).error)
    else
      var rest := Reread(es[1..], line + 6);
      if rest.Err? then rest else Ok([Entry(NormalizedName(es[0].name), es[0].key)] + rest.value)
  }

  lemma {:induction false} WordsPlain(words: seq<string>)
    requires forall i :: 0 <= i < |words| ==> '\n' !in words[i]
    ensures '\n' !in Words(words)
  {
    if words != [] {
      WordsPlain(words[1..]);
    }
  }

  predicate CommentLine(raw: string) {
    raw != "" && raw[0] == '#' && IsLine(raw)
  }

  predicate CommentHeader(h: Header) {
    CommentLine(h.first) && CommentLine(h.second)
  }

  lemma WordsComment(words: seq<string>, last: string)
    requires words != [] && words[0] == "#" && last != "" && '\n' !in last && last[|last| - 1] != '\r'
    requires forall i :: 0 <= i < |words| ==> '\n' !in words[i]
    ensures CommentLine(Words(words) + last)
  {
    WordsPlain(words);
  }

  lemma PrivateWordsPlain()
    ensures forall i :: 0 <= i < |PRIVATE_WORDS| ==> '\n' !in PRIVATE_WORDS[i]
    ensures PRIVATE_WORDS[0] == "#"
  {
  }

  lemma ClientWordsPlain()
    ensures forall i :: 0 <= i < |CLIENT_WORDS| ==> '\n' !in CLIENT_WORDS[i]
    ensures CLIENT_WORDS[0] == "#"
  {
  }

  lemma FirstIsComment()
    ensures CommentLine(HEADER.first)
  {
    PrivateWordsPlain();
    WordsComment(PRIVATE_WORDS, "it.");
  }

  lemma SecondIsComment()
    ensures CommentLine(HEADER.second)
  {
    ClientWordsPlain();
    WordsComment(CLIENT_WORDS, "<key>");
  }

  lemma HeaderIsComment()
    ensures CommentHeader(HEADER)
  {
    FirstIsComment();
    SecondIsComment();
  }

  lemma SixPlain(l1: string, l2: string, l3: string, l4: string, l5: string, l6: string)
    requires IsLine(l1) && IsLine(l2) && IsLine(l3) && IsLine(l4) && IsLine(l5) && IsLine(l6)
    ensures var lines := [l1, l2, l3, l4, l5, l6]; forall i :: 0 <= i < |lines| ==> IsLine(lines[i])
  {
  }

  lemma SectionLinesArePlain(h: Header, e: Entry)
    requires CommentHeader(h)
    ensures forall i :: 0 <= i < |SectionLines(h, e)| ==> IsLine(SectionLines(h, e)[i])
  {
    var name, key := NameLine(e.name), KeyLine(e.key);
    ParseNameLine(START, e.name, 0);
    ParseKeyLine(START, e.key, 0);
    SixPlain(h.first, h.second, "", "[[keys]]", name, key);
  }

  lemma FileTextLines(h: Header, e: Entry, rest: string)
    requires CommentHeader(h)
    ensures Lines(FileText(h, e) + rest) == SectionLines(h, e) + Lines(rest)
  {
    SectionLinesArePlain(h, e);
    LinesOfUnlines(SectionLines(h, e), rest);
  }

  /** The six lines of one printed file, read after anything that can be closed. */
  lemma ParseFileText(h: Header, s: State, e: Entry, rest: seq<string>, line: nat)
    requires CommentHeader(h)
    requires Finish(s, line + 3).Ok?
    ensures ParseLines(s, SectionLines(h, e) + rest, line) ==
        if ValidKey(e.key)
        then
          var closed := Finish(s, line + 3).value.entries;
          ParseLines(State(closed, Some(NormalizedName(e.name)), Some(e.key)), rest, line + 6)
        else Err(ValidateKey(e.key, line + 5).error)
  {
    var closed := Finish(s, line + 3).value;
    var named := closed.(name := Some(NormalizedName(e.name)));
    var l6 := [KeyLine(e.key)] + rest;
    var l5 := [NameLine(e.name)] + l6;
    var l4 := ["[[keys]]"] + l5;
    var l3 := [""] + l4;
    var l2 := [h.second] + l3;
    var l1 := [h.first] + l2;
    assert l1 == SectionLines(h, e) + rest;
    assert ParseLines(s, l1, line) == ParseLines(s, l2, line + 1) by { CommentSkipped(s, h.first, line); }
    assert ParseLines(s, l2, line + 1) == ParseLines(s, l3, line + 2) by { CommentSkipped(s, h.second, line + 1); }
    assert ParseLines(s, l3, line + 2) == ParseLines(s, l4, line + 3);
    assert ParseLines(s, l4, line + 3) == ParseLines(closed, l5, line + 4) by { SectionLine(s, line + 3); }
    assert ParseLines(closed, l5, line + 4) == ParseLines(named, l6, line + 5) by {
      ParseNameLine(closed, e.name, line + 4);
    }
    ParseKeyLine(named, e.key, line + 5);
  }

  lemma CommentSkipped(s: State, raw: string, line: nat)
    requires raw != "" && raw[0] == '#'
    ensures ParseLine(s, raw, line) == Ok(s)
  {
  }

  lemma PlainCode(raw: string)
    requires Tight(raw) && '"' !in raw && '#' !in raw
    ensures Trim(raw[..CodeLength(raw, false, false)]) == raw
  {
    CodeLengthPlain(raw, "");
    assert raw + "" == raw && raw[..|raw|] == raw;
  }

  lemma SectionLine(s: State, line: nat)
    ensures ParseLine(s, "[[keys]]", line) == Finish(s, line)
  {
    PlainCode("[[keys]]");
  }

  /** The entries of `s` once its last section is closed. */
  function Closed(s: State): seq<Entry> {
    if s.key.None? then s.entries
    else s.entries + [Entry(if s.name.Some? then s.name.value else "default", s.key.value)]
  }

  /** Reading came to `before` followed by what was expected, or to the expected error. */
  predicate ReadsBack(read: Result<State, ParseError>, before: seq<Entry>, expected: Result<seq<Entry>, ParseError>) {
    match expected
    case Err(error) => read == Err(error)
    case Ok(entries) =>
      read.Ok? && (read.value.key.Some? || read.value.name.None?) && Closed(read.value) == before + entries
  }

  lemma Regrouped(before: seq<Entry>, one: Entry, rest: seq<Entry>)
    ensures before + [one] + rest == before + ([one] + rest)
  {
  }

  lemma ReadsBackStep(read: Result<State, ParseError>, before: seq<Entry>, es: seq<Entry>, line: nat)
    requires es != [] && ValidKey(es[0].key)
    requires ReadsBack(read, before + [Entry(NormalizedName(es[0].name), es[0].key)], Reread(es[1..], line + 6))
    ensures ReadsBack(read, before, Reread(es, line))
  {
    var one, rest := Entry(NormalizedName(es[0].name), es[0].key), Reread(es[1..], line + 6);
    assert Reread(es, line) == if rest.Ok? then Ok([one] + rest.value) else rest;
    if rest.Ok? {
      Regrouped(before, one, rest.value);
    }
  }

  lemma {:induction false} ParseFileTexts(h: Header, s: State, es: seq<Entry>, line: nat)
    requires CommentHeader(h)
    requires s.key.Some? || s.name.None?
    decreases |es|
    ensures ReadsBack(ParseLines(s, Lines(FileTexts(h, es)), line), Closed(s), Reread(es, line))
  {
    if es == [] {
      assert Closed(s) + [] == Closed(s);
    } else {
      FileTextLines(h, es[0], FileTexts(h, es[1..]));
      ParseFileText(h, s, es[0], Lines(FileTexts(h, es[1..])), line);
      if ValidKey(es[0].key) {
        var next := State(Closed(s), Some(NormalizedName(es[0].name)), Some(es[0].key));
        ParseFileTexts(h, next, es[1..], line + 6);
        ReadsBackStep(ParseLines(next, Lines(FileTexts(h, es[1..])), line + 6), Closed(s), es, line);
      }
    }
  }

  /** Any number of printed files, read back together, give exactly their entries in order. */
  lemma FilesReadBack(h: Header, es: seq<Entry>)
    requires CommentHeader(h)
    ensures Parse(FileTexts(h, es)) == Reread(es, 1)
  {
    ParseFileTexts(h, START, es, 1);
    if Reread(es, 1).Ok? {
      assert Closed(START) + Reread(es, 1).value == Reread(es, 1).value;
    }
  }

  lemma OneFileReadsBack(h: Header, e: Entry)
    requires CommentHeader(h)
    ensures Parse(FileText(h, e)) == (if ValidKey(e.key) then Ok([Entry(NormalizedName(e.name), e.key)])
                                      else Err(ValidateKey(e.key, 6).error))
  {
    FilesReadBack(h, [e]);
    assert [e][1..] == [];
    assert FileTexts(h, [e]) == FileText(h, e) + "";
    assert FileText(h, e) + "" == FileText(h, e);
    assert [Entry(NormalizedName(e.name), e.key)] + [] == [Entry(NormalizedName(e.name), e.key)];
  }

  /** Printing and parsing is the identity exactly for trimmed, nonempty names and acceptable keys. */
  lemma KeyFileRoundTrip(e: Entry)
    ensures Parse(ApiKeysFileText(e)) == Ok([e]) <==> Tight(e.name) && ValidKey(e.key)
    ensures !ValidKey(e.key) ==> Parse(ApiKeysFileText(e)) == Err(ValidateKey(e.key, 6).error)
    ensures ValidKey(e.key) ==> Parse(ApiKeysFileText(e)) == Ok([Entry(NormalizedName(e.name), e.key)])
  {
    HeaderIsComment();
    OneFileReadsBack(HEADER, e);
  }

  /** A blank name, which printing lets through, is read back as the default name. */
  lemma BlankNameComesBackAsDefault(key: string)
    requires ValidKey(key)
    ensures Parse(ApiKeysFileText(Entry(" ", key))) == Ok([Entry("default", key)]) != Ok([Entry(" ", key)])
  {
    KeyFileRoundTrip(Entry(" ", key));
    assert Trim(" ") == "";
    assert NormalizedName(" ") == "default";
    assert "default"[0] != " "[0];
  }

  /* ---------- What is ever written ---------- */

  predicate HexDigits(digits: string) {
    |digits| == 64 && forall i :: 0 <= i < |digits| ==> '0' <= digits[i] <= '9' || 'a' <= digits[i] <= 'f'
  }

  const KEY_PREFIX := "sk-werk-"

  /** `generate_api_key`, for the random bytes that were drawn. */
  function GeneratedKey(digits: string): string {
    KEY_PREFIX + digits
  }

  lemma GeneratedKeyIsValid(digits: string)
    requires HexDigits(digits)
    ensures ValidKey(GeneratedKey(digits))
  {
    var key := GeneratedKey(digits);
    assert key[0] == 's';
    assert Trim(key) != "";
    forall c | c in key ensures !IsControl(c) {
      var i :| 0 <= i < |key| && key[i] == c;
      assert i >= |KEY_PREFIX| ==> key[i] == digits[i - |KEY_PREFIX|];
    }
  }

  /**
   * Every file that `write_api_keys_file` writes reads back as exactly the entry it returns, whatever name was asked
   * for.
   */
  lemma WrittenKeyFileReadsBack(name: string, digits: string)
    requires HexDigits(digits)
    ensures var e := Entry(NormalizedName(name), GeneratedKey(digits)); Parse(ApiKeysFileText(e)) == Ok([e])
  {
    GeneratedKeyIsValid(digits);
    KeyFileRoundTrip(Entry(NormalizedName(name), GeneratedKey(digits)));
  }
}
