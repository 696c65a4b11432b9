/** Splitting a migration file into statements: the scan, the grammar it follows, and what it undoes. */
module SqlSplitter {
  import opened Outcomes

  const QUOTES := {'\'', '"', '`'}

  /** What `str.strip` takes off. */
  predicate IsSpace(c: char) {
    || '\t' <= c <= '\r' || '\U{1c}' <= c <= ' ' || c == '\U{85}' || c == '\U{a0}' || c == '\U{1680}'
    || '\U{2000}' <= c <= '\U{200a}' || c in {'\U{2028}', '\U{2029}', '\U{202f}', '\U{205f}', '\U{3000}'}
  }

  function TrimLeft(s: string): string {
    if s != "" && IsSpace(s[0]) then TrimLeft(s[1..]) else s
  }

  function TrimRight(s: string): string {
    if s != "" && IsSpace(s[|s| - 1]) then TrimRight(s[..|s| - 1]) else s
  }

  function Strip(s: string): string {
    TrimRight(TrimLeft(s))
  }

  predicate Trimmed(s: string) {
    s != "" ==> !IsSpace(s[0]) && !IsSpace(s[|s| - 1])
  }

  // ----- the grammar

  /** A comment starts here. */
  predicate CommentAt(s: string) {
    |s| >= 2 && s[0] == '-' && s[1] == '-'
  }

  /** Where the first line ends, or -1. */
  function LineEnd(s: string): (n: int)
    ensures -1 <= n < |s|
  {
    if s == "" then -1
    else if s[0] == '\n' then 0
    else
      var rest := LineEnd(s[1..]);
      if rest < 0 then -1 else rest + 1
  }

  /** Text put in front of the first piece. */
  function Glue(text: string, pieces: seq<string>): seq<string>
    requires pieces != []
  {
    [text + pieces[0]] + pieces[1..]
  }

  /** How many characters are taken at once inside a quoted span: an escape takes the next one too. */
  function QuotedStep(s: string): (n: nat)
    requires s != ""
    ensures 1 <= n <= |s|
  {
    if s[0] == '\\' && |s| > 1 then 2 else 1
  }

  function StillOpen(s: string, quote: char): Option<char>
    requires s != ""
  {
    if QuotedStep(s) == 1 && s[0] == quote then None else Some(quote)
  }

  /** The pieces between separators: quoted spans whole, comments turned into a line break. */
  function Pieces(s: string, quote: Option<char>): (pieces: seq<string>)
    ensures pieces != []
    decreases |s|
  {
    if s == "" then [""]
    else if quote.Some? then
      Glue(s[..QuotedStep(s)], Pieces(s[QuotedStep(s)..], StillOpen(s, quote.value)))
    else if s[0] in QUOTES then Glue(s[..1], Pieces(s[1..], Some(s[0])))
    else if CommentAt(s) then
      if LineEnd(s) < 0 then [""] else Glue("\n", Pieces(s[LineEnd(s) + 1..], None))
    else if s[0] == ';' then [""] + Pieces(s[1..], None)
    else Glue(s[..1], Pieces(s[1..], None))
  }

  /** The pieces that are not blank, stripped. */
  function Kept(pieces: seq<string>): seq<string> {
    if pieces == [] then []
    else (if Strip(pieces[0]) == "" then [] else [Strip(pieces[0])]) + Kept(pieces[1..])
  }

  function Statements(sql: string): seq<string> {
    Kept(Pieces(sql, None))
  }

  // ----- the scan

  method FindLineEnd(sql: string, from: nat) returns (at: int)
    requires from <= |sql|
    ensures at == if LineEnd(sql[from..]) < 0 then -1 else from + LineEnd(sql[from..])
  {
    var i := from;
    while i < |sql|
      invariant from <= i <= |sql|
      invariant LineEnd(sql[from..]) == if LineEnd(sql[i..]) < 0 then -1 else i - from + LineEnd(sql[i..])
    {
      assert sql[i..][1..] == sql[i + 1..];
      if sql[i] == '\n' {
        return i;
      }
      i := i + 1;
    }
    return -1;
  }

  lemma GlueTwice(a: string, b: string, pieces: seq<string>)
    requires pieces != []
    ensures Glue(a, Glue(b, pieces)) == Glue(a + b, pieces)
  {
    assert a + (b + pieces[0]) == a + b + pieces[0];
  }

  lemma GlueNothing(pieces: seq<string>)
    requires pieces != []
    ensures Glue("", pieces) == pieces
  {
    assert "" + pieces[0] == pieces[0];
  }

  lemma GlueBlank(text: string, pieces: seq<string>)
    ensures Glue(text, [""] + pieces) == [text] + pieces
  {
    assert text + "" == text;
  }

  /** What is still to come of the pieces: the current one, and those of the rest of the file. */
  ghost function ToCome(sql: string, i: nat, quote: Option<char>, current: string): seq<string>
    requires i <= |sql|
  {
    Glue(current, Pieces(sql[i..], quote))
  }

  lemma TakeQuoted(sql: string, i: nat, quote: char, current: string)
    requires i < |sql|
    ensures var n := QuotedStep(sql[i..]);
            ToCome(sql, i, Some(quote), current) == ToCome(sql, i + n, StillOpen(sql[i..], quote), current + sql[i..i + n])
  {
    var rest := sql[i..];
    var n := QuotedStep(rest);
    assert rest[..n] == sql[i..i + n] && rest[n..] == sql[i + n..];
    GlueTwice(current, rest[..n], Pieces(rest[n..], StillOpen(rest, quote)));
  }

  /** A character outside quotes that is no separator and starts no comment. */
  lemma TakeOne(sql: string, i: nat, current: string)
    requires i < |sql| && sql[i] != ';' && !CommentAt(sql[i..])
    ensures ToCome(sql, i, None, current)
         == ToCome(sql, i + 1, if sql[i] in QUOTES then Some(sql[i]) else None, current + sql[i..i + 1])
  {
    var rest := sql[i..];
    assert rest[..1] == sql[i..i + 1] && rest[1..] == sql[i + 1..];
    GlueTwice(current, rest[..1], Pieces(rest[1..], if sql[i] in QUOTES then Some(sql[i]) else None));
  }

  lemma TakeComment(sql: string, i: nat, current: string)
    requires i < |sql| && CommentAt(sql[i..])
    ensures var end := LineEnd(sql[i..]);
            ToCome(sql, i, None, current)
            == if end < 0 then [current] else ToCome(sql, i + end + 1, None, current + "\n")
  {
    var rest := sql[i..];
    var end := LineEnd(rest);
    if end < 0 {
      GlueBlank(current, []);
      assert [""] + [] == [""];
    } else {
      CommentIsALineBreak(rest);
      assert rest[end + 1..] == sql[i + end + 1..];
      GlueTwice(current, "\n", Pieces(sql[i + end + 1..], None));
    }
  }

  lemma CommentIsALineBreak(rest: string)
    requires CommentAt(rest) && LineEnd(rest) >= 0
    ensures Pieces(rest, None) == Glue("\n", Pieces(rest[LineEnd(rest) + 1..], None))
  {
  }

  lemma TakeSeparator(sql: string, i: nat, current: string)
    requires i < |sql| && sql[i] == ';'
    ensures ToCome(sql, i, None, current) == [current] + ToCome(sql, i + 1, None, "")
  {
    var rest := sql[i..];
    assert rest[1..] == sql[i + 1..];
    GlueBlank(current, Pieces(sql[i + 1..], None));
    GlueNothing(Pieces(sql[i + 1..], None));
  }

  /** The scan so far: the pieces split off, and what is to come, make up the pieces of the file. */
  ghost predicate Scanned(sql: string, pieces: seq<string>, i: int, quote: Option<char>, current: string) {
    0 <= i <= |sql| && pieces + ToCome(sql, i, quote, current) == Pieces(sql, None)
  }

  lemma ScanStarts(sql: string)
    ensures Scanned(sql, [], 0, None, "")
  {
    assert sql[0..] == sql;
    GlueNothing(Pieces(sql, None));
    assert [] + Pieces(sql, None) == Pieces(sql, None);
  }

  lemma ScanQuoted(sql: string, pieces: seq<string>, i: int, quote: char, current: string)
    requires Scanned(sql, pieces, i, Some(quote), current) && i < |sql|
    ensures if sql[i] == '\\' && i + 1 < |sql| then
              Scanned(sql, pieces, i + 2, Some(quote), current + [sql[i]] + [sql[i + 1]])
            else
              Scanned(sql, pieces, i + 1, if sql[i] == quote then None else Some(quote), current + [sql[i]])
  {
    TakeQuoted(sql, i, quote, current);
    if sql[i] == '\\' && i + 1 < |sql| {
      assert current + sql[i..i + 2] == current + [sql[i]] + [sql[i + 1]];
    } else {
      assert sql[i..i + 1] == [sql[i]];
    }
  }

  lemma ScanOpens(sql: string, pieces: seq<string>, i: int, current: string)
    requires Scanned(sql, pieces, i, None, current) && i < |sql| && sql[i] in QUOTES
    ensures Scanned(sql, pieces, i + 1, Some(sql[i]), current + [sql[i]])
  {
    TakeOne(sql, i, current);
    assert sql[i..i + 1] == [sql[i]];
  }

  lemma ScanOne(sql: string, pieces: seq<string>, i: int, current: string)
    requires Scanned(sql, pieces, i, None, current) && i < |sql|
    requires sql[i] != ';' && sql[i] !in QUOTES && !DashesAt(sql, i)
    ensures Scanned(sql, pieces, i + 1, None, current + [sql[i]])
  {
    TakeOne(sql, i, current);
    assert sql[i..i + 1] == [sql[i]];
  }

  /** Two dashes at a position. */
  predicate DashesAt(sql: string, i: int) {
    0 <= i < |sql| - 1 && sql[i] == '-' && sql[i + 1] == '-'
  }

  lemma ScanComment(sql: string, pieces: seq<string>, i: int, current: string)
    requires Scanned(sql, pieces, i, None, current) && DashesAt(sql, i)
    ensures var end := LineEnd(sql[i..]);
            if end < 0 then Scanned(sql, pieces, |sql|, None, current)
            else Scanned(sql, pieces, i + end + 1, None, current + "\n")
  {
    TakeComment(sql, i, current);
    AtTheEnd(sql, None, current);
  }

  lemma ScanSeparator(sql: string, pieces: seq<string>, i: int, current: string)
    requires Scanned(sql, pieces, i, None, current) && i < |sql| && sql[i] == ';'
    ensures Scanned(sql, pieces + [current], i + 1, None, "")
  {
    TakeSeparator(sql, i, current);
    assert pieces + ([current] + ToCome(sql, i + 1, None, "")) == pieces + [current] + ToCome(sql, i + 1, None, "");
  }

  lemma AtTheEnd(sql: string, quote: Option<char>, current: string)
    ensures ToCome(sql, |sql|, quote, current) == [current]
  {
    assert sql[|sql|..] == "";
    GlueBlank(current, []);
    assert [""] + [] == [""];
  }

  lemma ScanEnds(sql: string, pieces: seq<string>, quote: Option<char>, current: string)
    requires Scanned(sql, pieces, |sql|, quote, current)
    ensures pieces + [current] == Pieces(sql, None)
  {
    AtTheEnd(sql, quote, current);
  }

  /** Split a file into statements, in one pass. */
  method SplitStatements(sql: string) returns (statements: seq<string>)
    ensures statements == Statements(sql)
  {
    var pieces := Scan(sql);
    statements := Keep(pieces);
  }

  method Scan(sql: string) returns (pieces: seq<string>)
    ensures pieces == Pieces(sql, None)
  {
    pieces := [];
    var current := "";
    var quote: Option<char> := None;
    var i := 0;
    ScanStarts(sql);
    while i < |sql|
      invariant Scanned(sql, pieces, i, quote, current)
      decreases |sql| - i
    {
      if quote.Some? {
        i, quote, current := ScanInside(sql, pieces, i, quote.value, current);
      } else {
        pieces, i, quote, current := ScanOutside(sql, pieces, i, current);
      }
    }
    ScanEnds(sql, pieces, quote, current);
    pieces := pieces + [current];
  }

  /** One step inside quotes: an escape takes the next character too. */
  method ScanInside(sql: string, pieces: seq<string>, i: nat, quote: char, current: string)
    returns (next: nat, open: Option<char>, text: string)
    requires Scanned(sql, pieces, i, Some(quote), current) && i < |sql|
    ensures Scanned(sql, pieces, next, open, text) && next > i
  {
    ScanQuoted(sql, pieces, i, quote, current);
    open, text := Some(quote), current + [sql[i]];
    if sql[i] == '\\' && i + 1 < |sql| {
      text, next := text + [sql[i + 1]], i + 2;
    } else {
      if sql[i] == quote {
        open := None;
      }
      next := i + 1;
    }
  }

  /** One step outside quotes. */
  method ScanOutside(sql: string, before: seq<string>, i: nat, current: string)
    returns (pieces: seq<string>, next: nat, open: Option<char>, text: string)
    requires Scanned(sql, before, i, None, current) && i < |sql|
    ensures Scanned(sql, pieces, next, open, text) && next > i
  {
    pieces, open := before, None;
    if sql[i] in QUOTES {
      ScanOpens(sql, before, i, current);
      open, text, next := Some(sql[i]), current + [sql[i]], i + 1;
    } else if DashesAt(sql, i) {
      text, next := ScanDashes(sql, before, i, current);
    } else if sql[i] == ';' {
      ScanSeparator(sql, before, i, current);
      pieces, text, next := before + [current], "", i + 1;
    } else {
      ScanOne(sql, before, i, current);
      text, next := current + [sql[i]], i + 1;
    }
  }

  /** A comment becomes a line break; one on the last line ends the scan. */
  method ScanDashes(sql: string, pieces: seq<string>, i: nat, current: string) returns (text: string, next: nat)
    requires Scanned(sql, pieces, i, None, current) && DashesAt(sql, i)
    ensures Scanned(sql, pieces, next, None, text) && next > i
  {
    ScanComment(sql, pieces, i, current);
    var newline := FindLineEnd(sql, i);
    if newline == -1 {
      text, next := current, |sql|;
    } else {
      text, next := current + "\n", newline + 1;
    }
  }

  /** Strip each piece and drop the blank ones. */
  method Keep(pieces: seq<string>) returns (kept: seq<string>)
    ensures kept == Kept(pieces)
  {
    kept := [];
    var i := |pieces|;
    while i > 0
      invariant 0 <= i <= |pieces| && kept == Kept(pieces[i..])
    {
      i := i - 1;
      assert pieces[i..][1..] == pieces[i + 1..];
      var stripped := Strip(pieces[i]);
      if stripped != "" {
        kept := [stripped] + kept;
      }
    }
  }

  // ----- plain statements

  /** No separator and no comment outside quotes, from here on. */
  predicate Unbroken(s: string, quote: Option<char>)
    decreases |s|
  {
    if s == "" then true
    else if quote.Some? then Unbroken(s[QuotedStep(s)..], StillOpen(s, quote.value))
    else if s[0] in QUOTES then Unbroken(s[1..], Some(s[0]))
    else !CommentAt(s) && s[0] != ';' && Unbroken(s[1..], None)
  }

  /** Every quote is closed by the end. */
  predicate Balanced(s: string, quote: Option<char>)
    decreases |s|
  {
    if s == "" then quote.None?
    else if quote.Some? then Balanced(s[QuotedStep(s)..], StillOpen(s, quote.value))
    else if s[0] in QUOTES then Balanced(s[1..], Some(s[0]))
    else Balanced(s[1..], None)
  }

  lemma {:induction false} UnbrokenIsOnePiece(s: string, quote: Option<char>)
    requires Unbroken(s, quote)
    ensures Pieces(s, quote) == [s]
    decreases |s|
  {
    if s != "" {
      if quote.Some? {
        var n := QuotedStep(s);
        UnbrokenIsOnePiece(s[n..], StillOpen(s, quote.value));
        assert s == s[..n] + s[n..];
      } else {
        UnbrokenIsOnePiece(s[1..], if s[0] in QUOTES then Some(s[0]) else None);
        assert s == s[..1] + s[1..];
      }
    }
  }

  /** A statement with its quotes closed ends at the separator after it. */
  lemma PlainThenSeparator(s: string, rest: string)
    requires Unbroken(s, None) && Balanced(s, None)
    ensures Pieces(s + ";" + rest, None) == [s] + Pieces(rest, None)
  {
    var tail := ";" + rest;
    GoesInFront(s, None, tail);
    assert s + ";" + rest == s + tail && tail[1..] == rest;
    GlueBlank(s, Pieces(rest, None));
  }

  // ----- quotes and comments

  function Concat(items: seq<string>): string {
    if items == [] then "" else items[0] + Concat(items[1..])
  }

  /** What stands between two quotes: characters other than the quote and the backslash, and backslashes with whatever
      follows each. */
  predicate Spanned(items: seq<string>, quote: char) {
    forall i :: 0 <= i < |items| ==>
      || (|items[i]| == 1 && items[i][0] != quote && items[i][0] != '\\')
      || (|items[i]| == 2 && items[i][0] == '\\')
  }

  lemma {:induction false} SpanIsTaken(items: seq<string>, quote: char, rest: string)
    requires Spanned(items, quote) && quote != '\\'
    ensures Pieces(Concat(items) + [quote] + rest, Some(quote)) == Glue(Concat(items) + [quote], Pieces(rest, None))
  {
    var all := Concat(items) + [quote] + rest;
    if items == [] {
      assert all[..1] == [quote] && all[1..] == rest;
    } else {
      var first, more := items[0], Concat(items[1..]) + [quote] + rest;
      assert all == first + more;
      assert QuotedStep(all) == |first| && StillOpen(all, quote) == Some(quote);
      assert all[..|first|] == first && all[|first|..] == more;
      SpanIsTaken(items[1..], quote, rest);
      GlueTwice(first, Concat(items[1..]) + [quote], Pieces(rest, None));
      assert first + (Concat(items[1..]) + [quote]) == Concat(items) + [quote];
    }
  }

  /** Between two quotes of any of the three kinds nothing separates, comments or ends the span: it is one statement. */
  lemma QuotedIsWhole(items: seq<string>, quote: char)
    requires quote == '\'' || quote == '"' || quote == '`'
    requires Spanned(items, quote)
    ensures var text := [quote] + Concat(items) + [quote]; Statements(text) == [text]
  {
    var text := [quote] + Concat(items) + [quote];
    var inner := Concat(items) + [quote];
    assert text[..1] == [quote] && text[1..] == inner + "";
    SpanIsTaken(items, quote, "");
    assert Pieces("", None) == [""] && inner + "" == inner;
    assert [quote] + inner == text;
    assert Pieces(text, None) == [text];
    assert !IsSpace(quote) && text[0] == text[|text| - 1] == quote;
    assert Kept([text]) == [text] by {
      KeptTrimmed([text]);
    }
  }

  predicate OneLine(s: string) {
    forall i :: 0 <= i < |s| ==> s[i] != '\n'
  }

  lemma {:induction false} LineEndsAfter(line: string, rest: string)
    requires OneLine(line)
    ensures LineEnd(line + "\n" + rest) == |line| && LineEnd(line) == -1
  {
    var all := line + "\n" + rest;
    if line != "" {
      LineEndsAfter(line[1..], rest);
      assert all[1..] == line[1..] + "\n" + rest;
    }
  }

  /** Text with its quotes closed and nothing to split at goes in front of the first piece of what follows. */
  lemma {:induction false} GoesInFront(before: string, quote: Option<char>, rest: string)
    requires quote.Some? ==> quote.value in QUOTES
    requires Unbroken(before, quote) && Balanced(before, quote)
    requires before == "" || rest == "" || before[|before| - 1] != '-' || rest[0] != '-'
    ensures Pieces(before + rest, quote) == Glue(before, Pieces(rest, None))
    decreases |before|
  {
    var all := before + rest;
    if before == "" {
      assert all == rest;
      GlueNothing(Pieces(rest, None));
    } else if quote.Some? {
      var n := QuotedStep(before);
      assert QuotedStep(all) == n && StillOpen(all, quote.value) == StillOpen(before, quote.value);
      assert all[n..] == before[n..] + rest && all[..n] == before[..n];
      GoesInFront(before[n..], StillOpen(before, quote.value), rest);
      GlueTwice(before[..n], before[n..], Pieces(rest, None));
      assert before == before[..n] + before[n..];
    } else {
      var next := if before[0] in QUOTES then Some(before[0]) else None;
      assert all[1..] == before[1..] + rest && all[..1] == before[..1];
      GoesInFront(before[1..], next, rest);
      GlueTwice(before[..1], before[1..], Pieces(rest, None));
      assert before == before[..1] + before[1..];
    }
  }

  /** After text with its quotes closed, a comment to the end of its line reads as the line break alone, and one to the
      end of the file as nothing. */
  lemma CommentReadsAsLineBreak(before: string, comment: string, rest: string)
    requires Unbroken(before, None) && Balanced(before, None) && OneLine(comment)
    requires before == "" || before[|before| - 1] != '-'
    ensures Pieces(before + "--" + comment + "\n" + rest, None) == Pieces(before + "\n" + rest, None)
    ensures Pieces(before + "--" + comment, None) == [before]
  {
    var dashes := "--" + comment;
    assert OneLine(dashes) && CommentAt(dashes);
    assert before + "--" + comment + "\n" + rest == before + (dashes + "\n" + rest);
    assert before + "\n" + rest == before + ("\n" + rest) && before + "--" + comment == before + dashes;
    CommentToItsEnd(before, dashes, rest);
  }

  lemma CommentToItsEnd(before: string, dashes: string, rest: string)
    requires Unbroken(before, None) && Balanced(before, None) && OneLine(dashes) && CommentAt(dashes)
    requires before == "" || before[|before| - 1] != '-'
    ensures Pieces(before + (dashes + "\n" + rest), None) == Pieces(before + ("\n" + rest), None)
    ensures Pieces(before + dashes, None) == [before]
  {
    CommentAtOnce(dashes, rest);
    GoesInFront(before, None, dashes + "\n" + rest);
    GoesInFront(before, None, "\n" + rest);
    GoesInFront(before, None, dashes);
    GlueBlank(before, []);
    assert [""] + [] == [""];
  }

  lemma CommentAtOnce(comment: string, rest: string)
    requires CommentAt(comment) && OneLine(comment)
    ensures Pieces(comment + "\n" + rest, None) == Pieces("\n" + rest, None) && Pieces(comment, None) == [""]
  {
    var all, none := comment + "\n" + rest, "\n" + rest;
    LineEndsAfter(comment, rest);
    assert all[LineEnd(all) + 1..] == rest;
    assert none[..1] == "\n" && none[1..] == rest;
  }

  /** White space, by code point. */
  predicate Blank(c: char) {
    var n := c as int;
    || 9 <= n <= 13 || 28 <= n <= 32 || n == 133 || n == 160 || n == 5760 || 8192 <= n <= 8202
    || n == 8232 || n == 8233 || n == 8239 || n == 8287 || n == 12288
  }

  predicate AllBlank(s: string) {
    forall i :: 0 <= i < |s| ==> Blank(s[i])
  }

  lemma {:induction false} TakesLeft(s: string) returns (taken: string)
    ensures s == taken + TrimLeft(s) && AllBlank(taken) && (TrimLeft(s) != "" ==> !Blank(TrimLeft(s)[0]))
  {
    if s != "" && IsSpace(s[0]) {
      taken := TakesLeft(s[1..]);
      taken := [s[0]] + taken;
      assert s == [s[0]] + s[1..];
    } else {
      taken := "";
    }
  }

  lemma {:induction false} TakesRight(s: string) returns (taken: string)
    ensures s == TrimRight(s) + taken && AllBlank(taken)
    ensures TrimRight(s) != "" ==> !Blank(TrimRight(s)[|TrimRight(s)| - 1]) && TrimRight(s)[0] == s[0]
  {
    if s != "" && IsSpace(s[|s| - 1]) {
      taken := TakesRight(s[..|s| - 1]);
      taken := taken + [s[|s| - 1]];
      assert s == s[..|s| - 1] + [s[|s| - 1]];
    } else {
      taken := "";
    }
  }

  /** A statement is its piece without the white space around it: nothing else is taken off, and none is left. */
  lemma StripTakesTheBlanks(s: string) returns (before: string, after: string)
    ensures s == before + Strip(s) + after && AllBlank(before) && AllBlank(after)
    ensures Strip(s) != "" ==> !Blank(Strip(s)[0]) && !Blank(Strip(s)[|Strip(s)| - 1])
    ensures Strip(s) == "" <==> AllBlank(s)
  {
    before := TakesLeft(s);
    after := TakesRight(TrimLeft(s));
    if Strip(s) != "" {
      assert s[|before|] == Strip(s)[0];
    }
  }

  // ----- joining

  function Join(statements: seq<string>): string {
    if statements == [] then ""
    else if |statements| == 1 then statements[0]
    else statements[0] + ";" + Join(statements[1..])
  }

  /** Statements a join can be split into again: each stripped and not blank, all but the last with its
      quotes closed. */
  predicate Joinable(statements: seq<string>) {
    && (forall i :: 0 <= i < |statements| ==> statements[i] != "" && Trimmed(statements[i]) && Unbroken(statements[i], None))
    && (forall i :: 0 <= i < |statements| - 1 ==> Balanced(statements[i], None))
  }

  lemma {:induction false} KeptTrimmed(statements: seq<string>)
    requires forall i :: 0 <= i < |statements| ==> statements[i] != "" && Trimmed(statements[i])
    ensures Kept(statements) == statements
  {
    if statements != [] {
      KeptTrimmed(statements[1..]);
    }
  }

  lemma {:induction false} JoinedPieces(statements: seq<string>)
    requires statements != [] && Joinable(statements)
    ensures Pieces(Join(statements), None) == statements
  {
    if |statements| == 1 {
      UnbrokenIsOnePiece(statements[0], None);
    } else {
      JoinedPieces(statements[1..]);
      PlainThenSeparator(statements[0], Join(statements[1..]));
      assert statements == [statements[0]] + statements[1..];
    }
  }

  /** Splitting undoes joining, for stripped, non-empty, quote-balanced statements without separators or
      comments outside quotes; the last one need not even close its quotes. */
  lemma SplitUndoesJoin(statements: seq<string>)
    requires Joinable(statements)
    ensures Statements(Join(statements)) == statements
  {
    if statements != [] {
      JoinedPieces(statements);
      KeptTrimmed(statements);
    }
  }

  // ----- what a split yields can be joined

  /** Pieces carry no separator and no comment; all but the last close their quotes. */
  ghost predicate GoodPieces(pieces: seq<string>, quote: Option<char>) {
    && pieces != [] && Unbroken(pieces[0], quote) && (|pieces| > 1 ==> Balanced(pieces[0], quote))
    && (forall i :: 1 <= i < |pieces| ==> Unbroken(pieces[i], None))
    && (forall i :: 1 <= i < |pieces| - 1 ==> Balanced(pieces[i], None))
  }

  /** A piece never starts with a dash unless the text does. */
  lemma FirstDash(s: string)
    requires s == "" || s[0] != '-'
    ensures var first := Pieces(s, None)[0];
            first == "" || first[0] != '-'
  {
  }

  lemma GoodOne(s: string, rest: seq<string>)
    requires s != "" && !CommentAt(s) && s[0] != ';'
    requires var next := if s[0] in QUOTES then Some(s[0]) else None;
             GoodPieces(rest, next) && rest == Pieces(s[1..], next)
    ensures GoodPieces(Pieces(s, None), None)
  {
    if s[0] == '-' {
      FirstDash(s[1..]);
    }
    assert s[..1] == [s[0]];
  }

  lemma GoodSeparator(s: string, rest: seq<string>)
    requires s != "" && s[0] == ';' && GoodPieces(rest, None) && rest == Pieces(s[1..], None)
    ensures GoodPieces(Pieces(s, None), None)
  {
    var all := [""] + rest;
    assert forall i :: 1 <= i < |all| ==> all[i] == rest[i - 1];
  }

  /** Nothing is left: the text has ended, or the rest is a comment. */
  lemma GoodEnd(s: string, quote: Option<char>)
    requires s == "" || (quote.None? && CommentAt(s) && LineEnd(s) < 0)
    ensures GoodPieces(Pieces(s, quote), quote)
  {
  }

  lemma GoodOutside(s: string)
    requires s != "" && !CommentAt(s)
    requires var next := if s[0] in QUOTES then Some(s[0]) else None;
             GoodPieces(Pieces(s[1..], next), next)
    ensures GoodPieces(Pieces(s, None), None)
  {
    if s[0] == ';' {
      GoodSeparator(s, Pieces(s[1..], None));
    } else {
      GoodOne(s, Pieces(s[1..], if s[0] in QUOTES then Some(s[0]) else None));
    }
  }

  /** Whatever the text, its pieces have no separator and no comment outside quotes, and all but the
      last close their quotes. */
  lemma {:induction false} PiecesAreGood(s: string, quote: Option<char>)
    requires quote.Some? ==> quote.value in QUOTES
    ensures GoodPieces(Pieces(s, quote), quote)
    decreases |s|
  {
    if s == "" || (quote.None? && CommentAt(s) && LineEnd(s) < 0) {
      GoodEnd(s, quote);
    } else if quote.Some? {
      var rest, next := s[QuotedStep(s)..], StillOpen(s, quote.value);
      PiecesAreGood(rest, next);
    } else if CommentAt(s) {
      PiecesAreGood(s[LineEnd(s) + 1..], None);
    } else {
      PiecesAreGood(s[1..], if s[0] in QUOTES then Some(s[0]) else None);
      GoodOutside(s);
    }
  }

  lemma {:induction false} TrimLeftKeeps(s: string)
    ensures Unbroken(s, None) ==> Unbroken(TrimLeft(s), None)
    ensures Balanced(s, None) ==> Balanced(TrimLeft(s), None)
    ensures TrimLeft(s) != "" ==> !IsSpace(TrimLeft(s)[0])
  {
    if s != "" && IsSpace(s[0]) {
      TrimLeftKeeps(s[1..]);
    }
  }

  /** A blank at the end is outside quotes if they are all closed after it. */
  lemma {:induction false} LastBlank(s: string, c: char, quote: Option<char>)
    requires IsSpace(c) && (quote.Some? ==> quote.value in QUOTES)
    ensures Unbroken(s + [c], quote) ==> Unbroken(s, quote)
    ensures Balanced(s + [c], quote) ==> Balanced(s, quote)
    decreases |s|
  {
    var all := s + [c];
    if s == "" {
      assert all[1..] == "";
    } else if quote.Some? {
      var n := QuotedStep(all);
      if n <= |s| && QuotedStep(s) == n {
        assert all[n..] == s[n..] + [c];
        LastBlank(s[n..], c, StillOpen(s, quote.value));
        assert StillOpen(all, quote.value) == StillOpen(s, quote.value);
      } else {
        assert s == [s[0]] && all[n..] == "" && s[1..] == "";
      }
    } else {
      assert all[1..] == s[1..] + [c];
      LastBlank(s[1..], c, if s[0] in QUOTES then Some(s[0]) else None);
      assert CommentAt(s) ==> CommentAt(all);
    }
  }

  lemma {:induction false} TrimRightKeeps(s: string)
    ensures Unbroken(s, None) ==> Unbroken(TrimRight(s), None)
    ensures Balanced(s, None) ==> Balanced(TrimRight(s), None)
    ensures TrimRight(s) <= s
    ensures TrimRight(s) != "" ==> !IsSpace(TrimRight(s)[|TrimRight(s)| - 1])
  {
    if s != "" && IsSpace(s[|s| - 1]) {
      var rest := s[..|s| - 1];
      assert s == rest + [s[|s| - 1]];
      LastBlank(rest, s[|s| - 1], None);
      TrimRightKeeps(rest);
    }
  }

  lemma StripKeeps(s: string)
    ensures Unbroken(s, None) ==> Unbroken(Strip(s), None)
    ensures Balanced(s, None) ==> Balanced(Strip(s), None)
    ensures Trimmed(Strip(s))
  {
    TrimLeftKeeps(s);
    TrimRightKeeps(TrimLeft(s));
  }

  lemma {:induction false} KeptJoinable(pieces: seq<string>)
    requires forall i :: 0 <= i < |pieces| ==> Unbroken(pieces[i], None)
    requires forall i :: 0 <= i < |pieces| - 1 ==> Balanced(pieces[i], None)
    ensures Joinable(Kept(pieces))
  {
    if pieces != [] {
      KeptJoinable(pieces[1..]);
      StripKeeps(pieces[0]);
      if |pieces| == 1 {
        assert Kept(pieces[1..]) == [];
      }
    }
  }

  /** Whatever the file, its statements joined again split into the same statements. */
  lemma SplitIsStable(sql: string)
    ensures Statements(Join(Statements(sql))) == Statements(sql)
  {
    PiecesAreGood(sql, None);
    KeptJoinable(Pieces(sql, None));
    SplitUndoesJoin(Statements(sql));
  }
}
