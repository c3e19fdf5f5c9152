/** What the scanners and the line parser of src/api_keys.rs accept, in terms of the pieces a line is made of. */
module KeyFileSyntax {
  import opened Common
  import opened Text
  import opened ApiKeys

  /** One character of a quoted text: written as it is, or after a backslash. */
  datatype Piece = Plain(c: char) | Backslashed(c: char)

  function Written(pieces: seq<Piece>): string {
    if pieces == [] then ""
    else (if pieces[0].Plain? then [pieces[0].c] else ['\\', pieces[0].c]) + Written(pieces[1..])
  }

  /** The characters that stand for themselves, and the three that a backslash makes into another one. */
  function Meaning(p: Piece): char {
    if p == Backslashed('n') then 10 as char
    else if p == Backslashed('r') then 13 as char
    else if p == Backslashed('t') then 9 as char
    else p.c
  }

  function Meant(pieces: seq<Piece>): string {
    if pieces == [] then "" else [Meaning(pieces[0])] + Meant(pieces[1..])
  }

  /** A quote or a backslash never stands for itself. */
  predicate WellFormed(pieces: seq<Piece>) {
    forall i :: 0 <= i < |pieces| ==> pieces[i].Plain? ==> pieces[i].c != '"' && pieces[i].c != '\\'
  }

  predicate Blank(s: string) {
    forall i :: 0 <= i < |s| ==> IsWhitespace(s[i])
  }

  lemma {:induction false} TrimStartSplits(s: string) returns (n: nat)
    ensures n <= |s| && TrimStart(s) == s[n..] && Blank(s[..n])
  {
    n := 0;
    if s != "" && IsWhitespace(s[0]) {
      var m := TrimStartSplits(s[1..]);
      n := m + 1;
      assert s[1..][m..] == s[n..];
      forall i | 0 <= i < n ensures IsWhitespace(s[..n][i]) {
        assert i > 0 ==> s[..n][i] == s[1..][..m][i - 1];
      }
    } else {
      assert s[0..] == s;
    }
  }

  lemma {:induction false} TrimEndSplits(s: string) returns (n: nat)
    ensures n <= |s| && TrimEnd(s) == s[..n] && Blank(s[n..])
  {
    n := |s|;
    if s != "" && IsWhitespace(s[|s| - 1]) {
      var shorter := s[..|s| - 1];
      n := TrimEndSplits(shorter);
      assert shorter[..n] == s[..n];
      assert s[n..] == shorter[n..] + [s[|s| - 1]];
    } else {
      assert s[..n] == s && s[n..] == "";
    }
  }

  /** Trimming takes away white space at the two ends, all of it, and nothing else. */
  lemma TrimMeans(s: string) returns (before: string, after: string)
    ensures s == before + Trim(s) + after && Blank(before) && Blank(after)
    ensures Trim(s) == "" || (!IsWhitespace(Trim(s)[0]) && !IsWhitespace(Trim(s)[|Trim(s)| - 1]))
    ensures Trim(s) == "" <==> Blank(s)
  {
    var n := TrimStartSplits(s);
    var m := TrimEndSplits(s[n..]);
    before, after := s[..n], s[n..][m..];
    assert s[n..] == s[n..][..m] + after;
    assert s == before + s[n..];
    if Trim(s) == "" {
      assert s == before + after;
    } else {
      assert s[|before|] == Trim(s)[0];
    }
  }

  /** From inside the quotes on: pieces, a closing quote, and whatever follows it. */
  lemma {:induction false} QuotedPieces(pieces: seq<Piece>, rest: string, out: string, line: nat)
    requires WellFormed(pieces)
    ensures Quoted(Written(pieces) + rest, false, out, line) == Quoted(rest, false, out + Meant(pieces), line)
  {
    var text := Written(pieces) + rest;
    if pieces == [] {
      assert text == rest && out + Meant(pieces) == out;
    } else {
      var tail := Written(pieces[1..]) + rest;
      QuotedPieces(pieces[1..], rest, out + [Meaning(pieces[0])], line);
      assert out + [Meaning(pieces[0])] + Meant(pieces[1..]) == out + Meant(pieces);
      if pieces[0].Plain? {
        assert text[0] == pieces[0].c && text[1..] == tail;
      } else {
        assert text[0] == '\\' && text[1..][0] == pieces[0].c && text[1..][1..] == tail;
      }
    }
  }

  /** A closed value is what its pieces mean, unless there is more on the line; an open one is refused. */
  lemma {:induction false} ValueReads(pieces: seq<Piece>, rest: string, line: nat)
    requires WellFormed(pieces)
    ensures TomlString("\"" + Written(pieces) + "\"" + rest, line)
         == if Blank(rest) then Ok(Meant(pieces)) else Err(TrailingText(line))
    ensures TomlString("\"" + Written(pieces), line) == Err(Unterminated(line))
    ensures TomlString("\"" + Written(pieces) + "\\", line) == Err(Unterminated(line))
  {
    var _, _ := TrimMeans(rest);
    var closed := "\"" + rest;
    QuotedPieces(pieces, closed, "", line);
    QuotedPieces(pieces, "", "", line);
    QuotedPieces(pieces, "\\", "", line);
    assert ("\"" + Written(pieces) + "\"" + rest)[1..] == Written(pieces) + closed;
    assert ("\"" + Written(pieces))[1..] == Written(pieces) + "";
    assert ("\"" + Written(pieces) + "\\")[1..] == Written(pieces) + "\\";
    assert "" + Meant(pieces) == Meant(pieces);
    assert closed[0] == '"' && closed[1..] == rest;
  }

  /** Every text is pieces up to a closing quote, up to its end, or up to a backslash with nothing behind it. */
  lemma {:induction false} TextIsPieces(s: string) returns (pieces: seq<Piece>, tail: string)
    ensures WellFormed(pieces) && s == Written(pieces) + tail
    ensures tail == "" || tail == "\\" || tail[0] == '"'
    decreases |s|
  {
    pieces, tail := [], s;
    if s != "" && s[0] != '"' && s[0] != '\\' {
      var more;
      more, tail := TextIsPieces(s[1..]);
      pieces := [Plain(s[0])] + more;
      WrittenFirst(Plain(s[0]), more, tail);
    } else if |s| >= 2 && s[0] == '\\' {
      var more;
      more, tail := TextIsPieces(s[2..]);
      pieces := [Backslashed(s[1])] + more;
      WrittenFirst(Backslashed(s[1]), more, tail);
    }
  }

  lemma WrittenFirst(first: Piece, more: seq<Piece>, tail: string)
    ensures Written([first] + more) + tail
         == (if first.Plain? then [first.c] else ['\\', first.c]) + (Written(more) + tail)
  {
    assert ([first] + more)[1..] == more;
  }

  /** The value is a quoted text of these pieces, with `rest` behind it. */
  predicate Spells(value: string, pieces: seq<Piece>, rest: string) {
    WellFormed(pieces) && value == "\"" + Written(pieces) + "\"" + rest
  }

  /** A value is accepted exactly as a quoted text with nothing but white space behind it, and is what that means. */
  lemma {:induction false} ValueAccepted(value: string, v: string, line: nat)
    ensures TomlString(value, line) == Ok(v) <==>
      exists pieces, rest :: Spells(value, pieces, rest) && Blank(rest) && Meant(pieces) == v
    ensures TomlString(value, line) == Err(NotQuoted(line)) <==> value == "" || value[0] != '"'
  {
    if value != "" && value[0] == '"' {
      var pieces, tail := TextIsPieces(value[1..]);
      assert value == "\"" + Written(pieces) + tail;
      if tail != "" && tail[0] == '"' {
        var rest := tail[1..];
        assert tail == "\"" + rest;
        assert Spells(value, pieces, rest);
        ValueReads(pieces, rest, line);
      } else {
        ValueReads(pieces, "", line);
        assert tail == "" ==> value == "\"" + Written(pieces);
      }
    }
    if pieces, rest :| Spells(value, pieces, rest) && Blank(rest) && Meant(pieces) == v {
      ValueReads(pieces, rest, line);
    }
  }

  /** Inside a string the comment scanner passes over pieces. */
  lemma {:induction false} CodePieces(pieces: seq<Piece>, rest: string)
    requires WellFormed(pieces)
    ensures CodeLength(Written(pieces) + rest, false, true) == |Written(pieces)| + CodeLength(rest, false, true)
  {
    var text := Written(pieces) + rest;
    if pieces == [] {
      assert text == rest;
    } else {
      var tail := Written(pieces[1..]) + rest;
      CodePieces(pieces[1..], rest);
      if pieces[0].Plain? {
        assert text[0] == pieces[0].c && text[1..] == tail;
      } else {
        assert text[0] == '\\' && text[1..][0] == pieces[0].c && text[1..][1..] == tail;
      }
    }
  }

  /** Where a comment begins: at the first number sign outside quotes, if there is one. */
  lemma CommentBegins(before: string, rest: string)
    requires '"' !in before && '#' !in before
    ensures CodeLength(before + "#" + rest, false, false) == |before|
    ensures CodeLength(before, false, false) == |before|
  {
    CodeLengthPlain(before, "#" + rest);
    assert before + "#" + rest == before + ("#" + rest);
    CodeLengthPlain(before, "");
    assert before + "" == before;
  }

  /** A whole string is passed over, with any signs in it. */
  lemma StringIsPassed(before: string, pieces: seq<Piece>, rest: string)
    requires '"' !in before && '#' !in before && WellFormed(pieces)
    ensures var quoted := "\"" + Written(pieces) + "\"";
      CodeLength(before + quoted + rest, false, false) == |before + quoted| + CodeLength(rest, false, false)
  {
    StringPassed(before, pieces, "\"" + rest);
    assert before + ("\"" + Written(pieces) + "\"") + rest == before + "\"" + Written(pieces) + ("\"" + rest);
    assert ("\"" + rest)[1..] == rest;
  }

  /** An open string hides the rest of the line. */
  lemma OpenStringHides(before: string, pieces: seq<Piece>)
    requires '"' !in before && '#' !in before && WellFormed(pieces)
    ensures var line := before + "\"" + Written(pieces); CodeLength(line, false, false) == |line|
    ensures var line := before + "\"" + Written(pieces) + "\\"; CodeLength(line, false, false) == |line|
  {
    StringPassed(before, pieces, "");
    assert before + "\"" + Written(pieces) + "" == before + "\"" + Written(pieces);
    StringPassed(before, pieces, "\\");
  }

  lemma {:induction false} StringPassed(before: string, pieces: seq<Piece>, rest: string)
    requires '"' !in before && '#' !in before && WellFormed(pieces)
    ensures CodeLength(before + "\"" + Written(pieces) + rest, false, false)
         == |before| + 1 + |Written(pieces)| + CodeLength(rest, false, true)
  {
    var quoted := "\"" + (Written(pieces) + rest);
    assert before + "\"" + Written(pieces) + rest == before + quoted;
    CodeLengthPlain(before, quoted);
    assert quoted[0] == '"' && quoted[1..] == Written(pieces) + rest;
    CodePieces(pieces, rest);
  }

  /* ---------- Lines and sections ---------- */

  predicate HasControl(v: string) {
    exists i :: 0 <= i < |v| && IsControl(v[i])
  }

  lemma ValidateMeans(v: string, line: nat)
    ensures ValidateKey(v, line)
         == if Blank(v) then Err(KeyEmpty(line)) else if HasControl(v) then Err(KeyControl(line)) else Ok(v)
    ensures NormalizedName(v) == if Blank(v) then "default" else Trim(v)
  {
    var _, _ := TrimMeans(v);
    assert HasControl(v) <==> exists c :: c in v && IsControl(c) by {
      if HasControl(v) {
        var i :| 0 <= i < |v| && IsControl(v[i]);
        assert v[i] in v;
      }
    }
  }

  /** What a field does to the section being read: two of them count, and every other one is passed over. */
  lemma FieldMeans(s: State, raw: string, field: string, value: string, v: string, line: nat)
    requires Trim(raw[..CodeLength(raw, false, false)]) == field + "=" + value && '=' !in field
    requires TomlString(Trim(value), line) == Ok(v)
    ensures var after := ParseLine(s, raw, line);
      && (Trim(field) == "name" ==>
            after == Ok(State(s.entries, Some(if Blank(v) then "default" else Trim(v)), s.key)))
      && (Trim(field) == "key" ==>
            after == if Blank(v) then Err(KeyEmpty(line))
                     else if HasControl(v) then Err(KeyControl(line))
                     else Ok(State(s.entries, s.name, Some(v))))
      && (Trim(field) != "name" && Trim(field) != "key" ==> after == Ok(s))
  {
    assert (field + "=" + value)[|field|] == '=';
    SplitOnceAt(field, '=', value);
    ValidateMeans(v, line);
  }

  /** A line that is neither blank, nor a section head, nor a pair with a quoted value ends the reading. */
  lemma OtherLinesFail(s: State, raw: string, line: nat)
    ensures var code, after := Trim(raw[..CodeLength(raw, false, false)]), ParseLine(s, raw, line);
      && (code == "" ==> after == Ok(s))
      && (code != "" && code != "[[keys]]" && '=' !in code ==> after == Err(ExpectedPair(line)))
  {
    var code := Trim(raw[..CodeLength(raw, false, false)]);
    if '=' !in code {
      NothingToSplit(code, '=');
    }
  }

  lemma {:induction false} NothingToSplit(s: string, c: char)
    requires c !in s
    ensures SplitOnce(s, c) == None
  {
    if s != "" {
      NothingToSplit(s[1..], c);
    }
  }

  /** The next section head closes the section before it, which must have a key if it has a name. */
  lemma SectionCloses(s: State, line: nat)
    ensures var after := ParseLine(s, "[[keys]]", line);
      && (s.key.Some? && s.name.Some? ==>
            after == Ok(State(s.entries + [Entry(s.name.value, s.key.value)], None, None)))
      && (s.key.Some? && s.name.None? ==>
            after == Ok(State(s.entries + [Entry("default", s.key.value)], None, None)))
      && (s.key.None? && s.name.Some? ==> after == Err(KeyMissing(line)))
      && (s.key.None? && s.name.None? ==> after == Ok(s))
  {
    SectionLine(s, line);
  }

  /** Lines are read one after another, each under its own number, and the first that fails decides. */
  lemma {:induction false} ReadInOrder(s: State, a: seq<string>, b: seq<string>, from: nat)
    ensures ParseLines(s, a + b, from) ==
      var first := ParseLines(s, a, from);
      if first.Err? then first else ParseLines(first.value, b, from + |a|)
    decreases |a|
  {
    if a == [] {
      assert a + b == b;
    } else {
      var all, next := a + b, ParseLine(s, a[0], from);
      assert all[0] == a[0] && all[1..] == a[1..] + b;
      if next.Ok? {
        ReadInOrder(next.value, a[1..], b, from + 1);
        assert ParseLines(s, all, from) == ParseLines(next.value, a[1..] + b, from + 1);
        assert ParseLines(s, a, from) == ParseLines(next.value, a[1..], from + 1);
        assert from + 1 + |a[1..]| == from + |a|;
      } else {
        assert ParseLines(s, all, from) == next == ParseLines(s, a, from);
      }
    }
  }

  /** A file whose last section has a name but no key is refused, with the number of the line after the last. */
  lemma UnfinishedFile(text: string)
    requires ParseLines(START, Lines(text), 1).Ok?
    ensures var s, end := ParseLines(START, Lines(text), 1).value, |Lines(text)| + 1;
      && (Parse(text).Err? <==> s.name.Some? && s.key.None?)
      && (Parse(text).Err? ==> Parse(text) == Err(KeyMissing(end)))
      && (s.key.Some? && s.name.Some? ==> Parse(text) == Ok(s.entries + [Entry(s.name.value, s.key.value)]))
      && (s.key.Some? && s.name.None? ==> Parse(text) == Ok(s.entries + [Entry("default", s.key.value)]))
      && (s.key.None? && s.name.None? ==> Parse(text) == Ok(s.entries))
  {
  }
}
