/**
 * ActionChain.index_name_box: the guard regular expressions, str.split, re.search,
 * re.sub and int() it uses, and the grid range it builds from a name box such as
 * "B7", "A1:C10", "3:5" or "B:D".
 */
module NameBox {
  import opened Errors
  import ColumnCodec

  // ---------------------------------------------------------------------------
  // Characters and decimal numbers
  // ---------------------------------------------------------------------------

  /** The class \d, restricted to ASCII. */
  predicate IsDigit(ch: char) {
    '0' <= ch <= '9'
  }

  /** \d+ matched against the whole of s. */
  predicate Digits(s: string) {
    |s| > 0 && forall i :: 0 <= i < |s| ==> IsDigit(s[i])
  }

  /** No character of s is an upper-case ASCII letter. */
  predicate NoUpper(s: string) {
    forall i :: 0 <= i < |s| ==> !ColumnCodec.IsUpper(s[i])
  }

  /** The common ASCII whitespace, which int() strips from both ends of its argument. */
  predicate IsSpace(ch: char) {
    ch == ' ' || ch == '\t' || ch == '\n' || ch == '\r' || ch == '\U{B}' || ch == '\U{C}'
  }

  function DigitValue(ch: char): (d: nat)
    requires IsDigit(ch)
    ensures d < 10
  {
    ch as int - '0' as int
  }

  /** The value of a string of decimal digits, most significant first. */
  function Decimal(s: string): nat
    requires forall i :: 0 <= i < |s| ==> IsDigit(s[i])
  {
    if s == [] then 0 else 10 * Decimal(s[..|s| - 1]) + DigitValue(s[|s| - 1])
  }

  /** Leading whitespace removed. */
  function StripLeft(t: string): (r: string)
    ensures |r| <= |t| && r == t[|t| - |r|..]
    ensures forall i :: 0 <= i < |t| - |r| ==> IsSpace(t[i])
    ensures r == [] || !IsSpace(r[0])
  {
    if |t| > 0 && IsSpace(t[0]) then StripLeft(t[1..]) else t
  }

  /** Trailing whitespace removed. */
  function StripRight(t: string): (r: string)
    ensures |r| <= |t| && r == t[..|r|]
    ensures forall i :: |r| <= i < |t| ==> IsSpace(t[i])
    ensures r == [] || !IsSpace(r[|r| - 1])
  {
    if |t| > 0 && IsSpace(t[|t| - 1]) then StripRight(t[..|t| - 1]) else t
  }

  /** int(t) for base 10: surrounding whitespace is ignored, the rest must be digits. */
  function IntOf(t: string): (r: Result<int>)
    ensures r.Err? ==> r.error == InvalidLiteral(t)
    ensures r.Ok? ==> r.value >= 0
  {
    var u := StripRight(StripLeft(t));
    if Digits(u) then Ok(Decimal(u)) else Err(InvalidLiteral(t))
  }

  lemma IntOfDigits(d: string)
    requires Digits(d)
    ensures IntOf(d) == Ok(Decimal(d))
    ensures IntOf(d + "\n") == Ok(Decimal(d))
  {
    var t := d + "\n";
    assert StripLeft(d) == d;
    assert StripLeft(t) == t;
    assert t[..|t| - 1] == d;
    assert StripRight(d) == d;
    assert StripRight(t) == StripRight(d);
  }

  lemma IntOfNewline()
    ensures IntOf("\n") == Err(InvalidLiteral("\n"))
  {
    assert StripLeft("\n") == StripLeft("");
  }

  // ---------------------------------------------------------------------------
  // str.split, re.search(r"^[A-Z]+", ...) and re.sub
  // ---------------------------------------------------------------------------

  /** s.split(sep): the pieces between the occurrences of sep, always at least one. */
  function Split(s: string, sep: char): (parts: seq<string>)
    ensures |parts| >= 1
    ensures forall k :: 0 <= k < |parts| ==> sep !in parts[k]
    decreases |s|
  {
    if s == [] then [""]
    else
      var rest := Split(s[1..], sep);
      if s[0] == sep then [""] + rest else [[s[0]] + rest[0]] + rest[1..]
  }

  /** sep.join(parts). */
  function Join(parts: seq<string>, sep: char): string
    requires |parts| >= 1
    decreases |parts|
  {
    if |parts| == 1 then parts[0] else parts[0] + [sep] + Join(parts[1..], sep)
  }

  /** str.split loses nothing: joining its pieces with the separator gives back s. */
  lemma {:induction false} JoinSplit(s: string, sep: char)
    ensures Join(Split(s, sep), sep) == s
    decreases |s|
  {
    if s != [] {
      var rest := Split(s[1..], sep);
      JoinSplit(s[1..], sep);
      if s[0] == sep {
        assert ([""] + rest)[1..] == rest;
      } else {
        var parts := [[s[0]] + rest[0]] + rest[1..];
        assert parts[1..] == rest[1..];
        assert [s[0]] + s[1..] == s;
      }
    }
  }

  lemma {:induction false} SplitNone(s: string, sep: char)
    requires sep !in s
    ensures Split(s, sep) == [s]
    decreases |s|
  {
    if s != [] {
      SplitNone(s[1..], sep);
      assert [s[0]] + s[1..] == s;
    }
  }

  lemma {:induction false} SplitOnce(a: string, b: string, sep: char)
    requires sep !in a && sep !in b
    ensures Split(a + [sep] + b, sep) == [a, b]
    decreases |a|
  {
    var s := a + [sep] + b;
    if a == [] {
      assert s[1..] == b;
      SplitNone(b, sep);
    } else {
      assert s[1..] == a[1..] + [sep] + b;
      SplitOnce(a[1..], b, sep);
      assert [a[0]] + a[1..] == a;
    }
  }

  /** The length of the longest prefix of upper-case letters: what re.search(r"^[A-Z]+", s) finds. */
  function UpperPrefixLen(s: string): (n: nat)
    ensures n <= |s|
    ensures forall i :: 0 <= i < n ==> ColumnCodec.IsUpper(s[i])
    ensures n == |s| || !ColumnCodec.IsUpper(s[n])
    decreases |s|
  {
    if |s| > 0 && ColumnCodec.IsUpper(s[0]) then 1 + UpperPrefixLen(s[1..]) else 0
  }

  lemma {:induction false} UpperPrefixOf(x: string, rest: string)
    requires forall i :: 0 <= i < |x| ==> ColumnCodec.IsUpper(x[i])
    requires rest == [] || !ColumnCodec.IsUpper(rest[0])
    ensures UpperPrefixLen(x + rest) == |x|
    decreases |x|
  {
    if x == [] {
      assert x + rest == rest;
    } else {
      UpperPrefixOf(x[1..], rest);
      assert (x + rest)[1..] == x[1..] + rest;
    }
  }

  /**
   * re.sub(pat, "", s) for a pattern made of letters only: every occurrence of pat,
   * found left to right without overlap, is deleted.
   */
  function RemoveAll(pat: string, s: string): (r: string)
    requires |pat| > 0
    ensures |r| <= |s|
    decreases |s|
  {
    if |s| < |pat| then s
    else if s[..|pat|] == pat then RemoveAll(pat, s[|pat|..])
    else [s[0]] + RemoveAll(pat, s[1..])
  }

  lemma {:induction false} RemoveAllAbsent(pat: string, s: string)
    requires ColumnCodec.Letters(pat) && NoUpper(s)
    ensures RemoveAll(pat, s) == s
    decreases |s|
  {
    if |s| >= |pat| {
      assert s[..|pat|][0] != pat[0];
      RemoveAllAbsent(pat, s[1..]);
      assert [s[0]] + s[1..] == s;
    }
  }

  lemma RemoveAllPrefix(pat: string, rest: string)
    requires ColumnCodec.Letters(pat) && NoUpper(rest)
    ensures RemoveAll(pat, pat + rest) == rest
  {
    var s := pat + rest;
    assert s[..|pat|] == pat && s[|pat|..] == rest;
    RemoveAllAbsent(pat, rest);
  }

  // ---------------------------------------------------------------------------
  // The guard regular expressions
  // ---------------------------------------------------------------------------

  /** The four shapes a name box can have. */
  datatype Pattern =
    | RowRange     // \d+:\d+
    | ColumnRange  // [A-Z]+:[A-Z]+
    | CellRange    // [A-Z]+\d+:[A-Z]+\d+
    | Cell         // [A-Z]+\d+

  /** [A-Z]+\d+ matched against the whole of t. */
  predicate IsCell(t: string) {
    exists i :: 0 < i < |t| && ColumnCodec.Letters(t[..i]) && Digits(t[i..])
  }

  /** The pattern matched against the whole of t. */
  predicate FullMatch(p: Pattern, t: string) {
    match p
    case RowRange => exists i :: 0 <= i < |t| && t[i] == ':' && Digits(t[..i]) && Digits(t[i + 1..])
    case ColumnRange =>
      exists i :: 0 <= i < |t| && t[i] == ':' && ColumnCodec.Letters(t[..i]) && ColumnCodec.Letters(t[i + 1..])
    case CellRange => exists i :: 0 <= i < |t| && t[i] == ':' && IsCell(t[..i]) && IsCell(t[i + 1..])
    case Cell => IsCell(t)
  }

  /**
   * re.search(r"^P$", s): ^ anchors at the start, and $ matches at the end or just before
   * a newline that ends the string.
   */
  predicate Search(p: Pattern, s: string) {
    FullMatch(p, s) || (|s| > 0 && s[|s| - 1] == '\n' && FullMatch(p, s[..|s| - 1]))
  }

  /** The _format argument: "ROWS", "COLUMNS", anything else being the normal format. */
  datatype Format = Rows | Columns | Normal

  const ROWS: string := "ROWS"
  const COLUMNS: string := "COLUMNS"

  function FormatOf(format: string): (f: Format)
    ensures f == Rows <==> format == ROWS
    ensures f == Columns <==> format == COLUMNS
  {
    if format == ROWS then Rows else if format == COLUMNS then Columns else Normal
  }

  /** The guard of index_name_box: which name boxes each format lets through. */
  predicate Accepted(format: Format, s: string) {
    match format
    case Rows => Search(RowRange, s)
    case Columns => Search(ColumnRange, s)
    case Normal => Search(CellRange, s) || Search(RowRange, s) || Search(ColumnRange, s) || Search(Cell, s)
  }

  // ---------------------------------------------------------------------------
  // index_name_box
  // ---------------------------------------------------------------------------

  /** The dictionary index_name_box returns: half-open, 0-based row and column bounds. */
  datatype GridRange = GridRange(startRowIndex: int, endRowIndex: int, startColumnIndex: int, endColumnIndex: int)

  datatype Option<T> = None | Some(value: T)

  /**
   * One side of the colon, as index_name_box reads it: the value of the leading letters
   * found by re.search(r"^[A-Z]+", ...), if any, and int() of the rest, if the rest is
   * there to read (without leading letters the whole piece is read as the row).
   */
  datatype Endpoint = Endpoint(column: Option<int>, row: Option<int>)

  function ParseEndpoint(piece: string): (r: Result<Endpoint>)
    ensures r.Err? ==> r.error.InvalidLiteral?
    ensures r.Ok? ==> (r.value.column.None? <==> UpperPrefixLen(piece) == 0)
  {
    var n := UpperPrefixLen(piece);
    if n == 0 then
      match IntOf(piece)
      case Err(e) => Err(e)
      case Ok(row) => Ok(Endpoint(None, Some(row)))
    else
      var letters := piece[..n];
      var rest := RemoveAll(letters, piece);
      if rest == [] then Ok(Endpoint(Some(ColumnCodec.Str2Count(letters)), None))
      else
        match IntOf(rest)
        case Err(e) => Err(e)
        case Ok(row) => Ok(Endpoint(Some(ColumnCodec.Str2Count(letters)), Some(row)))
  }

  /**
   * Everything index_name_box does with the pieces of n = name_box.split(":"): the start
   * corner from the first, the end corner from the second, or a range one cell wide and
   * high when there is no second piece.
   */
  function ParsePieces(n: seq<string>, rowCount: int, columnCount: int): (r: Result<GridRange>)
    requires |n| >= 1
    ensures r.Err? ==> r.error.InvalidLiteral?
  {
    match ParseEndpoint(n[0])
    case Err(e) => Err(e)
    case Ok(start) =>
      if |n| == 2 then
        match ParseEndpoint(n[1])
        case Err(e) => Err(e)
        case Ok(end) =>
          Ok(GridRange(StartRow(start), EndRow(end, rowCount), StartColumn(start), EndColumn(end, columnCount)))
      else
        Ok(GridRange(StartRow(start), StartRow(start) + 1, StartColumn(start), StartColumn(start) + 1))
  }

  /** start_row_index: int() of the row part less one, 0 when there is none. */
  function StartRow(e: Endpoint): int {
    if e.row.Some? then e.row.value - 1 else 0
  }

  /** start_col_index: str2count of the letters less one, 0 when there are none. */
  function StartColumn(e: Endpoint): int {
    if e.column.Some? then e.column.value - 1 else 0
  }

  /** end_row_index: int() of the row part, rowCount when there is none. */
  function EndRow(e: Endpoint, rowCount: int): int {
    if e.row.Some? then e.row.value else rowCount
  }

  /** end_col_index: str2count of the letters, columnCount when there are none. */
  function EndColumn(e: Endpoint, columnCount: int): int {
    if e.column.Some? then e.column.value else columnCount
  }

  /** ActionChain.index_name_box: the guard, then the parse. */
  function IndexNameBox(nameBox: string, rowCount: int, columnCount: int, format: Format): (r: Result<GridRange>)
    ensures r == Err(InvalidNameBox(nameBox)) <==> !Accepted(format, nameBox)
    ensures r.Err? ==> r.error.InvalidNameBox? || r.error.InvalidLiteral?
  {
    if !Accepted(format, nameBox) then Err(InvalidNameBox(nameBox))
    else ParsePieces(Split(nameBox, ':'), rowCount, columnCount)
  }

  // ---------------------------------------------------------------------------
  // What index_name_box returns for each shape of name box
  // ---------------------------------------------------------------------------

  /** Letters followed by text without upper-case letters: how re.search and re.sub split it. */
  lemma PieceParts(x: string, rest: string)
    requires ColumnCodec.Letters(x) && NoUpper(rest)
    ensures UpperPrefixLen(x + rest) == |x|
    ensures (x + rest)[..|x|] == x
    ensures RemoveAll(x, x + rest) == rest
  {
    UpperPrefixOf(x, rest);
    RemoveAllPrefix(x, rest);
  }

  lemma DigitsNoUpper(d: string)
    requires Digits(d)
    ensures NoUpper(d) && NoUpper(d + "\n") && ':' !in d && '\n' !in d
  {
  }

  lemma LettersNoColon(x: string)
    requires ColumnCodec.Letters(x)
    ensures ':' !in x && '\n' !in x
  {
  }

  lemma CellNoColon(x: string, d: string)
    requires ColumnCodec.Letters(x) && Digits(d)
    ensures ':' !in x + d && '\n' !in x + d
    ensures IsCell(x + d)
  {
    var a := x + d;
    assert a[..|x|] == x && a[|x|..] == d;
    LettersNoColon(x);
    DigitsNoUpper(d);
  }

  /** Letters x followed by a non-empty row part: the column from x, the row from int(). */
  lemma EndpointOfLetters(x: string, rest: string)
    requires ColumnCodec.Letters(x) && NoUpper(rest) && rest != []
    ensures ParseEndpoint(x + rest)
      == if IntOf(rest).Ok? then Ok(Endpoint(Some(ColumnCodec.Str2Count(x)), Some(IntOf(rest).value)))
         else Err(IntOf(rest).error)
  {
    PieceParts(x, rest);
  }

  /** "B" or "B\n": a column on its own, or int() failing on the newline. */
  lemma EndpointOfColumn(x: string)
    requires ColumnCodec.Letters(x)
    ensures ParseEndpoint(x) == Ok(Endpoint(Some(ColumnCodec.Str2Count(x)), None))
    ensures ParseEndpoint(x + "\n") == Err(InvalidLiteral("\n"))
  {
    PieceParts(x, "");
    assert x + "" == x;
    IntOfNewline();
    EndpointOfLetters(x, "\n");
  }

  /** "7" or "7\n": a row on its own. */
  lemma EndpointOfDigits(d: string)
    requires Digits(d)
    ensures ParseEndpoint(d) == Ok(Endpoint(None, Some(Decimal(d))))
    ensures ParseEndpoint(d + "\n") == Ok(Endpoint(None, Some(Decimal(d))))
  {
    IntOfDigits(d);
    assert UpperPrefixLen(d) == 0;
    assert UpperPrefixLen(d + "\n") == 0;
  }

  /** "B7": both a column and a row. */
  lemma EndpointOfCell(x: string, d: string)
    requires ColumnCodec.Letters(x) && Digits(d)
    ensures ParseEndpoint(x + d) == Ok(Endpoint(Some(ColumnCodec.Str2Count(x)), Some(Decimal(d))))
  {
    DigitsNoUpper(d);
    IntOfDigits(d);
    EndpointOfLetters(x, d);
  }

  /** "B7\n": int() ignores the newline. */
  lemma EndpointOfCellNewline(x: string, d: string)
    requires ColumnCodec.Letters(x) && Digits(d)
    ensures ParseEndpoint(x + d + "\n") == Ok(Endpoint(Some(ColumnCodec.Str2Count(x)), Some(Decimal(d))))
  {
    var rest := d + "\n";
    assert x + d + "\n" == x + rest;
    DigitsNoUpper(d);
    IntOfDigits(d);
    EndpointOfLetters(x, rest);
  }

  /** "B", ":" and "C": the two pieces str.split finds. */
  lemma SplitPieces(a: string, b: string)
    requires ':' !in a && ':' !in b
    ensures Split(a + ":" + b, ':') == [a, b]
    ensures ':' !in b + "\n" && Split(a + ":" + b + "\n", ':') == [a, b + "\n"]
  {
    assert a + ":" + b == a + [':'] + b;
    assert a + ":" + b + "\n" == a + [':'] + (b + "\n");
    SplitOnce(a, b, ':');
    SplitOnce(a, b + "\n", ':');
  }

  /** Two pieces, each naming a column and a row. */
  lemma ParseTwoCells(a: string, b: string, sc: int, sr: int, ec: int, er: int, rowCount: int, columnCount: int)
    requires ParseEndpoint(a) == Ok(Endpoint(Some(sc), Some(sr)))
    requires ParseEndpoint(b) == Ok(Endpoint(Some(ec), Some(er)))
    ensures ParsePieces([a, b], rowCount, columnCount) == Ok(GridRange(sr - 1, er, sc - 1, ec))
  {
  }

  /** Two pieces, each naming a row only. */
  lemma ParseTwoRows(a: string, b: string, sr: int, er: int, rowCount: int, columnCount: int)
    requires ParseEndpoint(a) == Ok(Endpoint(None, Some(sr)))
    requires ParseEndpoint(b) == Ok(Endpoint(None, Some(er)))
    ensures ParsePieces([a, b], rowCount, columnCount) == Ok(GridRange(sr - 1, er, 0, columnCount))
  {
  }

  /** Two pieces, each naming a column only. */
  lemma ParseTwoColumns(a: string, b: string, sc: int, ec: int, rowCount: int, columnCount: int)
    requires ParseEndpoint(a) == Ok(Endpoint(Some(sc), None))
    requires ParseEndpoint(b) == Ok(Endpoint(Some(ec), None))
    ensures ParsePieces([a, b], rowCount, columnCount) == Ok(GridRange(0, rowCount, sc - 1, ec))
  {
  }

  /** One piece naming a column and a row. */
  lemma ParseOneCell(a: string, c: int, r: int, rowCount: int, columnCount: int)
    requires ParseEndpoint(a) == Ok(Endpoint(Some(c), Some(r)))
    ensures ParsePieces([a], rowCount, columnCount) == Ok(GridRange(r - 1, r, c - 1, c))
  {
  }

  /** Two pieces, the first naming a column only, the second failing in int(). */
  lemma ParseColumnThenError(a: string, b: string, c: int, e: Error, rowCount: int, columnCount: int)
    requires ParseEndpoint(a) == Ok(Endpoint(Some(c), None))
    requires ParseEndpoint(b) == Err(e)
    ensures ParsePieces([a, b], rowCount, columnCount) == Err(e)
  {
  }

  /** Past the guard, index_name_box is the parse of the pieces str.split finds. */
  lemma IndexFromPieces(s: string, format: Format, n: seq<string>, rowCount: int, columnCount: int)
    requires Accepted(format, s) && Split(s, ':') == n
    ensures |n| >= 1 && IndexNameBox(s, rowCount, columnCount, format) == ParsePieces(n, rowCount, columnCount)
  {
  }

  /** A name box past the guard that splits into two pieces, each naming a column and a row. */
  lemma TwoCellsBox(s: string, format: Format, a: string, b: string, sc: int, sr: int, ec: int, er: int,
                    rowCount: int, columnCount: int)
    requires Accepted(format, s) && Split(s, ':') == [a, b]
    requires ParseEndpoint(a) == Ok(Endpoint(Some(sc), Some(sr)))
    requires ParseEndpoint(b) == Ok(Endpoint(Some(ec), Some(er)))
    ensures IndexNameBox(s, rowCount, columnCount, format) == Ok(GridRange(sr - 1, er, sc - 1, ec))
  {
    IndexFromPieces(s, format, [a, b], rowCount, columnCount);
    ParseTwoCells(a, b, sc, sr, ec, er, rowCount, columnCount);
  }

  /** A name box past the guard that splits into two pieces, each naming a row only. */
  lemma TwoRowsBox(s: string, format: Format, a: string, b: string, sr: int, er: int, rowCount: int, columnCount: int)
    requires Accepted(format, s) && Split(s, ':') == [a, b]
    requires ParseEndpoint(a) == Ok(Endpoint(None, Some(sr)))
    requires ParseEndpoint(b) == Ok(Endpoint(None, Some(er)))
    ensures IndexNameBox(s, rowCount, columnCount, format) == Ok(GridRange(sr - 1, er, 0, columnCount))
  {
    IndexFromPieces(s, format, [a, b], rowCount, columnCount);
    ParseTwoRows(a, b, sr, er, rowCount, columnCount);
  }

  /** A name box past the guard that splits into two pieces, each naming a column only. */
  lemma TwoColumnsBox(s: string, format: Format, a: string, b: string, sc: int, ec: int, rowCount: int, columnCount: int)
    requires Accepted(format, s) && Split(s, ':') == [a, b]
    requires ParseEndpoint(a) == Ok(Endpoint(Some(sc), None))
    requires ParseEndpoint(b) == Ok(Endpoint(Some(ec), None))
    ensures IndexNameBox(s, rowCount, columnCount, format) == Ok(GridRange(0, rowCount, sc - 1, ec))
  {
    IndexFromPieces(s, format, [a, b], rowCount, columnCount);
    ParseTwoColumns(a, b, sc, ec, rowCount, columnCount);
  }

  /** A name box past the guard that is one piece naming a column and a row. */
  lemma OneCellBox(s: string, format: Format, c: int, r: int, rowCount: int, columnCount: int)
    requires Accepted(format, s) && Split(s, ':') == [s]
    requires ParseEndpoint(s) == Ok(Endpoint(Some(c), Some(r)))
    ensures IndexNameBox(s, rowCount, columnCount, format) == Ok(GridRange(r - 1, r, c - 1, c))
  {
    IndexFromPieces(s, format, [s], rowCount, columnCount);
    ParseOneCell(s, c, r, rowCount, columnCount);
  }

  /** A name box past the guard whose first piece names a column and whose second fails in int(). */
  lemma ColumnThenErrorBox(s: string, format: Format, a: string, b: string, c: int, e: Error,
                           rowCount: int, columnCount: int)
    requires Accepted(format, s) && Split(s, ':') == [a, b]
    requires ParseEndpoint(a) == Ok(Endpoint(Some(c), None))
    requires ParseEndpoint(b) == Err(e)
    ensures IndexNameBox(s, rowCount, columnCount, format) == Err(e)
  {
    IndexFromPieces(s, format, [a, b], rowCount, columnCount);
    ParseColumnThenError(a, b, c, e, rowCount, columnCount);
  }

  /** t and t + "\n" pass the guard together whenever t matches p. */
  lemma SearchBoth(p: Pattern, t: string)
    requires FullMatch(p, t)
    ensures Search(p, t) && Search(p, t + "\n")
  {
    assert (t + "\n")[..|t|] == t;
  }

  lemma AcceptCellRange(x: string, d1: string, y: string, d2: string)
    requires ColumnCodec.Letters(x) && Digits(d1) && ColumnCodec.Letters(y) && Digits(d2)
    ensures Accepted(Normal, x + d1 + ":" + (y + d2)) && Accepted(Normal, x + d1 + ":" + (y + d2) + "\n")
  {
    var a, b := x + d1, y + d2;
    var t := a + ":" + b;
    CellNoColon(x, d1);
    CellNoColon(y, d2);
    assert t[|a|] == ':' && t[..|a|] == a && t[|a| + 1..] == b;
    assert FullMatch(CellRange, t);
    SearchBoth(CellRange, t);
  }

  lemma AcceptCell(x: string, d: string)
    requires ColumnCodec.Letters(x) && Digits(d)
    ensures Accepted(Normal, x + d) && Accepted(Normal, x + d + "\n")
  {
    CellNoColon(x, d);
    SearchBoth(Cell, x + d);
  }

  lemma AcceptRowRange(a: string, b: string, format: Format)
    requires Digits(a) && Digits(b) && format != Columns
    ensures Accepted(format, a + ":" + b) && Accepted(format, a + ":" + b + "\n")
  {
    var t := a + ":" + b;
    assert t[|a|] == ':' && t[..|a|] == a && t[|a| + 1..] == b;
    assert FullMatch(RowRange, t);
    SearchBoth(RowRange, t);
  }

  lemma AcceptColumnRange(x: string, y: string, format: Format)
    requires ColumnCodec.Letters(x) && ColumnCodec.Letters(y) && format != Rows
    ensures Accepted(format, x + ":" + y) && Accepted(format, x + ":" + y + "\n")
  {
    var t := x + ":" + y;
    assert t[|x|] == ':' && t[..|x|] == x && t[|x| + 1..] == y;
    assert FullMatch(ColumnRange, t);
    SearchBoth(ColumnRange, t);
  }

  /**
   * "A1:C10": from the first cell's row and column to the second's, both included. The
   * row numbers r1, r2 and column numbers c1, c2 are what int() and str2count make of
   * the pieces.
   */
  lemma CellRangeBox(x: string, d1: string, y: string, d2: string, c1: int, r1: int, c2: int, r2: int,
                     rowCount: int, columnCount: int)
    requires ColumnCodec.Letters(x) && Digits(d1) && ColumnCodec.Letters(y) && Digits(d2)
    requires c1 == ColumnCodec.Str2Count(x) && r1 == Decimal(d1) && c2 == ColumnCodec.Str2Count(y) && r2 == Decimal(d2)
    ensures IndexNameBox(x + d1 + ":" + (y + d2), rowCount, columnCount, Normal) == Ok(GridRange(r1 - 1, r2, c1 - 1, c2))
  {
    AcceptCellRange(x, d1, y, d2);
    CellNoColon(x, d1);
    CellNoColon(y, d2);
    SplitPieces(x + d1, y + d2);
    EndpointOfCell(x, d1);
    EndpointOfCell(y, d2);
    TwoCellsBox(x + d1 + ":" + (y + d2), Normal, x + d1, y + d2, c1, r1, c2, r2, rowCount, columnCount);
  }

  /** "A1:C10\n": the guard's $ lets one final newline through, and int() ignores it. */
  lemma CellRangeBoxNewline(x: string, d1: string, y: string, d2: string, c1: int, r1: int, c2: int, r2: int,
                            rowCount: int, columnCount: int)
    requires ColumnCodec.Letters(x) && Digits(d1) && ColumnCodec.Letters(y) && Digits(d2)
    requires c1 == ColumnCodec.Str2Count(x) && r1 == Decimal(d1) && c2 == ColumnCodec.Str2Count(y) && r2 == Decimal(d2)
    ensures IndexNameBox(x + d1 + ":" + (y + d2) + "\n", rowCount, columnCount, Normal)
      == Ok(GridRange(r1 - 1, r2, c1 - 1, c2))
  {
    AcceptCellRange(x, d1, y, d2);
    CellNoColon(x, d1);
    CellNoColon(y, d2);
    SplitPieces(x + d1, y + d2);
    EndpointOfCell(x, d1);
    EndpointOfCellNewline(y, d2);
    TwoCellsBox(x + d1 + ":" + (y + d2) + "\n", Normal, x + d1, y + d2 + "\n", c1, r1, c2, r2, rowCount, columnCount);
  }

  /** "B7": the single cell in row r and column c, one row high and one column wide. */
  lemma CellBox(x: string, d: string, c: int, r: int, rowCount: int, columnCount: int)
    requires ColumnCodec.Letters(x) && Digits(d) && c == ColumnCodec.Str2Count(x) && r == Decimal(d)
    ensures IndexNameBox(x + d, rowCount, columnCount, Normal) == Ok(GridRange(r - 1, r, c - 1, c))
  {
    AcceptCell(x, d);
    CellNoColon(x, d);
    SplitNone(x + d, ':');
    EndpointOfCell(x, d);
    OneCellBox(x + d, Normal, c, r, rowCount, columnCount);
  }

  lemma CellBoxNewline(x: string, d: string, c: int, r: int, rowCount: int, columnCount: int)
    requires ColumnCodec.Letters(x) && Digits(d) && c == ColumnCodec.Str2Count(x) && r == Decimal(d)
    ensures IndexNameBox(x + d + "\n", rowCount, columnCount, Normal) == Ok(GridRange(r - 1, r, c - 1, c))
  {
    AcceptCell(x, d);
    CellNoColon(x, d);
    assert ':' !in x + d + "\n";
    SplitNone(x + d + "\n", ':');
    EndpointOfCellNewline(x, d);
    OneCellBox(x + d + "\n", Normal, c, r, rowCount, columnCount);
  }

  /** "3:5": whole rows, from row r1 to row r2, across every column. */
  lemma RowRangeBox(a: string, b: string, r1: int, r2: int, rowCount: int, columnCount: int, format: Format)
    requires Digits(a) && Digits(b) && r1 == Decimal(a) && r2 == Decimal(b) && format != Columns
    ensures IndexNameBox(a + ":" + b, rowCount, columnCount, format) == Ok(GridRange(r1 - 1, r2, 0, columnCount))
  {
    AcceptRowRange(a, b, format);
    DigitsNoUpper(a);
    DigitsNoUpper(b);
    SplitPieces(a, b);
    EndpointOfDigits(a);
    EndpointOfDigits(b);
    TwoRowsBox(a + ":" + b, format, a, b, r1, r2, rowCount, columnCount);
  }

  lemma RowRangeBoxNewline(a: string, b: string, r1: int, r2: int, rowCount: int, columnCount: int, format: Format)
    requires Digits(a) && Digits(b) && r1 == Decimal(a) && r2 == Decimal(b) && format != Columns
    ensures IndexNameBox(a + ":" + b + "\n", rowCount, columnCount, format) == Ok(GridRange(r1 - 1, r2, 0, columnCount))
  {
    AcceptRowRange(a, b, format);
    DigitsNoUpper(a);
    DigitsNoUpper(b);
    SplitPieces(a, b);
    EndpointOfDigits(a);
    EndpointOfDigits(b);
    TwoRowsBox(a + ":" + b + "\n", format, a, b + "\n", r1, r2, rowCount, columnCount);
  }

  /** "B:D": whole columns, from column c1 to column c2, down every row. */
  lemma ColumnRangeBox(x: string, y: string, c1: int, c2: int, rowCount: int, columnCount: int, format: Format)
    requires ColumnCodec.Letters(x) && ColumnCodec.Letters(y) && format != Rows
    requires c1 == ColumnCodec.Str2Count(x) && c2 == ColumnCodec.Str2Count(y)
    ensures IndexNameBox(x + ":" + y, rowCount, columnCount, format) == Ok(GridRange(0, rowCount, c1 - 1, c2))
  {
    AcceptColumnRange(x, y, format);
    LettersNoColon(x);
    LettersNoColon(y);
    SplitPieces(x, y);
    EndpointOfColumn(x);
    EndpointOfColumn(y);
    TwoColumnsBox(x + ":" + y, format, x, y, c1, c2, rowCount, columnCount);
  }

  /**
   * "B:D\n": the guard's $ lets the final newline through, but the second piece is then
   * "D\n", and int() fails on the "\n" left once the letters are removed.
   */
  lemma ColumnRangeBoxNewline(x: string, y: string, rowCount: int, columnCount: int, format: Format)
    requires ColumnCodec.Letters(x) && ColumnCodec.Letters(y) && format != Rows
    ensures IndexNameBox(x + ":" + y + "\n", rowCount, columnCount, format) == Err(InvalidLiteral("\n"))
  {
    AcceptColumnRange(x, y, format);
    LettersNoColon(x);
    LettersNoColon(y);
    SplitPieces(x, y);
    EndpointOfColumn(x);
    EndpointOfColumn(y);
    ColumnThenErrorBox(x + ":" + y + "\n", format, x, y + "\n", ColumnCodec.Str2Count(x), InvalidLiteral("\n"),
                       rowCount, columnCount);
  }

  /** t cut at a colon: the part before it, the colon, the part after it. */
  lemma ColonCut(t: string, i: int)
    requires 0 <= i < |t| && t[i] == ':'
    ensures t == t[..i] + ":" + t[i + 1..]
    ensures '\n' !in t[..i] && '\n' !in t[i + 1..] ==> '\n' !in t
    ensures i > 0 ==> t[0] == t[..i][0]
  {
    assert t == t[..i] + [':'] + t[i + 1..];
  }

  /** A cell is its letters followed by its digits. */
  lemma CellParts(a: string) returns (x: string, d: string)
    requires IsCell(a)
    ensures ColumnCodec.Letters(x) && Digits(d) && a == x + d
  {
    var j :| 0 < j < |a| && ColumnCodec.Letters(a[..j]) && Digits(a[j..]);
    x, d := a[..j], a[j..];
    assert a == x + d;
  }

  /** A cell starts with a letter and holds no newline. */
  lemma CellChars(a: string)
    requires IsCell(a)
    ensures ColumnCodec.IsUpper(a[0]) && '\n' !in a
  {
    var x, d := CellParts(a);
  }

  /** What every match of the guard patterns starts with, and that it holds no newline. */
  lemma MatchChars(p: Pattern, t: string)
    requires FullMatch(p, t)
    ensures t != [] && '\n' !in t
    ensures p == RowRange ==> IsDigit(t[0])
    ensures p != RowRange ==> ColumnCodec.IsUpper(t[0])
  {
    match p
    case RowRange =>
      var i :| 0 <= i < |t| && t[i] == ':' && Digits(t[..i]) && Digits(t[i + 1..]);
      ColonCut(t, i);
    case ColumnRange =>
      var i :| 0 <= i < |t| && t[i] == ':' && ColumnCodec.Letters(t[..i]) && ColumnCodec.Letters(t[i + 1..]);
      ColonCut(t, i);
    case CellRange =>
      var i :| 0 <= i < |t| && t[i] == ':' && IsCell(t[..i]) && IsCell(t[i + 1..]);
      CellChars(t[..i]);
      CellChars(t[i + 1..]);
      ColonCut(t, i);
    case Cell =>
      CellChars(t);
  }

  /** Every cell range the guard accepts, with or without a final newline, parses. */
  lemma CellRangeOk(t: string, rowCount: int, columnCount: int)
    requires FullMatch(CellRange, t)
    ensures IndexNameBox(t, rowCount, columnCount, Normal).Ok?
    ensures IndexNameBox(t + "\n", rowCount, columnCount, Normal).Ok?
  {
    var i :| 0 <= i < |t| && t[i] == ':' && IsCell(t[..i]) && IsCell(t[i + 1..]);
    var x, d1 := CellParts(t[..i]);
    var y, d2 := CellParts(t[i + 1..]);
    ColonCut(t, i);
    CellRangeBox(x, d1, y, d2, ColumnCodec.Str2Count(x), Decimal(d1), ColumnCodec.Str2Count(y), Decimal(d2),
                 rowCount, columnCount);
    CellRangeBoxNewline(x, d1, y, d2, ColumnCodec.Str2Count(x), Decimal(d1), ColumnCodec.Str2Count(y), Decimal(d2),
                        rowCount, columnCount);
  }

  /** Every single cell the guard accepts, with or without a final newline, parses. */
  lemma CellOk(t: string, rowCount: int, columnCount: int)
    requires FullMatch(Cell, t)
    ensures IndexNameBox(t, rowCount, columnCount, Normal).Ok?
    ensures IndexNameBox(t + "\n", rowCount, columnCount, Normal).Ok?
  {
    var x, d := CellParts(t);
    CellBox(x, d, ColumnCodec.Str2Count(x), Decimal(d), rowCount, columnCount);
    CellBoxNewline(x, d, ColumnCodec.Str2Count(x), Decimal(d), rowCount, columnCount);
  }

  /** Every row range the guard accepts, with or without a final newline, parses. */
  lemma RowRangeOk(t: string, rowCount: int, columnCount: int, format: Format)
    requires FullMatch(RowRange, t) && format != Columns
    ensures IndexNameBox(t, rowCount, columnCount, format).Ok?
    ensures IndexNameBox(t + "\n", rowCount, columnCount, format).Ok?
  {
    var i :| 0 <= i < |t| && t[i] == ':' && Digits(t[..i]) && Digits(t[i + 1..]);
    var a, b := t[..i], t[i + 1..];
    ColonCut(t, i);
    RowRangeBox(a, b, Decimal(a), Decimal(b), rowCount, columnCount, format);
    RowRangeBoxNewline(a, b, Decimal(a), Decimal(b), rowCount, columnCount, format);
  }

  /** Every column range the guard accepts parses; followed by a newline, int() fails. */
  lemma ColumnRangeOk(t: string, rowCount: int, columnCount: int, format: Format)
    requires FullMatch(ColumnRange, t) && format != Rows
    ensures IndexNameBox(t, rowCount, columnCount, format).Ok?
    ensures IndexNameBox(t + "\n", rowCount, columnCount, format) == Err(InvalidLiteral("\n"))
  {
    var i :| 0 <= i < |t| && t[i] == ':' && ColumnCodec.Letters(t[..i]) && ColumnCodec.Letters(t[i + 1..]);
    var x, y := t[..i], t[i + 1..];
    ColonCut(t, i);
    ColumnRangeBox(x, y, ColumnCodec.Str2Count(x), ColumnCodec.Str2Count(y), rowCount, columnCount, format);
    ColumnRangeBoxNewline(x, y, rowCount, columnCount, format);
  }

  /** A column range followed by the one newline that the guard's $ lets through. */
  predicate ColumnRangeNewline(s: string) {
    |s| > 0 && s[|s| - 1] == '\n' && FullMatch(ColumnRange, s[..|s| - 1])
  }

  /**
   * Past the guard, index_name_box fails for exactly one kind of name box: a column range
   * with a final newline, where int() raises ValueError on the "\n"; every other accepted
   * name box gives a grid range.
   */
  lemma PastGuard(s: string, rowCount: int, columnCount: int, format: Format)
    requires Accepted(format, s)
    ensures IndexNameBox(s, rowCount, columnCount, format).Ok? <==> !ColumnRangeNewline(s)
    ensures ColumnRangeNewline(s) ==> IndexNameBox(s, rowCount, columnCount, format) == Err(InvalidLiteral("\n"))
  {
    if |s| > 0 && s[|s| - 1] == '\n' {
      var t := s[..|s| - 1];
      assert s == t + "\n";
      if FullMatch(CellRange, s) {
        MatchChars(CellRange, s);
      } else if FullMatch(RowRange, s) {
        MatchChars(RowRange, s);
      } else if FullMatch(ColumnRange, s) {
        MatchChars(ColumnRange, s);
      } else if FullMatch(Cell, s) {
        MatchChars(Cell, s);
      } else if FullMatch(ColumnRange, t) {
        if format == Rows {
          MatchChars(ColumnRange, t);
          MatchChars(RowRange, t);
        } else {
          ColumnRangeOk(t, rowCount, columnCount, format);
        }
      } else if FullMatch(CellRange, t) {
        CellRangeOk(t, rowCount, columnCount);
      } else if FullMatch(RowRange, t) {
        RowRangeOk(t, rowCount, columnCount, format);
      } else {
        CellOk(t, rowCount, columnCount);
      }
    } else if FullMatch(CellRange, s) && format == Normal {
      CellRangeOk(s, rowCount, columnCount);
    } else if FullMatch(RowRange, s) && format != Columns {
      RowRangeOk(s, rowCount, columnCount, format);
    } else if FullMatch(ColumnRange, s) && format != Rows {
      ColumnRangeOk(s, rowCount, columnCount, format);
    } else {
      CellOk(s, rowCount, columnCount);
    }
  }

  /** Under ROWS only a row range passes the guard: a name box starting with a letter is refused. */
  lemma RowsRefuseLetters(s: string, rowCount: int, columnCount: int)
    requires |s| > 0 && ColumnCodec.IsUpper(s[0])
    ensures IndexNameBox(s, rowCount, columnCount, Rows) == Err(InvalidNameBox(s))
  {
    if FullMatch(RowRange, s) {
      MatchChars(RowRange, s);
    } else if |s| > 1 && s[|s| - 1] == '\n' && FullMatch(RowRange, s[..|s| - 1]) {
      MatchChars(RowRange, s[..|s| - 1]);
    }
  }

  /** Under COLUMNS only a column range passes the guard: a name box starting with a digit is refused. */
  lemma ColumnsRefuseDigits(s: string, rowCount: int, columnCount: int)
    requires |s| > 0 && IsDigit(s[0])
    ensures IndexNameBox(s, rowCount, columnCount, Columns) == Err(InvalidNameBox(s))
  {
    if FullMatch(ColumnRange, s) {
      MatchChars(ColumnRange, s);
    } else if |s| > 1 && s[|s| - 1] == '\n' && FullMatch(ColumnRange, s[..|s| - 1]) {
      MatchChars(ColumnRange, s[..|s| - 1]);
    }
  }

  /** No format accepts the empty name box. */
  lemma EmptyRefused(rowCount: int, columnCount: int, format: Format)
    ensures IndexNameBox("", rowCount, columnCount, format) == Err(InvalidNameBox(""))
  {
    forall p: Pattern
      ensures !FullMatch(p, "")
    {
      if FullMatch(p, "") {
        MatchChars(p, "");
      }
    }
  }

  /** "B7" is row 7 of column 2: the range from row index 6 and column index 1, one cell in size. */
  lemma CellExample(rowCount: int, columnCount: int)
    ensures IndexNameBox("B7", rowCount, columnCount, Normal) == Ok(GridRange(6, 7, 1, 2))
  {
    assert ColumnCodec.Str2Count("B") == 2;
    assert Decimal("7") == 7;
    assert "B" + "7" == "B7";
    CellBox("B", "7", 2, 7, rowCount, columnCount);
  }

  /** "A1:C10" is rows 1 to 10 of columns 1 to 3. */
  lemma CellRangeExample(rowCount: int, columnCount: int)
    ensures IndexNameBox("A1:C10", rowCount, columnCount, Normal) == Ok(GridRange(0, 10, 0, 3))
  {
    assert ColumnCodec.Str2Count("A") == 1 && ColumnCodec.Str2Count("C") == 3;
    assert Decimal("1") == 1;
    assert Decimal("10") == 10 by {
      assert "10"[..1] == "1";
    }
    assert "A" + "1" + ":" + ("C" + "10") == "A1:C10";
    CellRangeBox("A", "1", "C", "10", 1, 1, 3, 10, rowCount, columnCount);
  }

  /** "3:5" is rows 3 to 5 across the sheet, under ROWS as under the normal format. */
  lemma RowRangeExample(rowCount: int, columnCount: int, format: Format)
    requires format != Columns
    ensures IndexNameBox("3:5", rowCount, columnCount, format) == Ok(GridRange(2, 5, 0, columnCount))
  {
    assert Decimal("3") == 3 && Decimal("5") == 5;
    assert "3" + ":" + "5" == "3:5";
    RowRangeBox("3", "5", 3, 5, rowCount, columnCount, format);
  }

  /** Nothing keeps a row bound from being negative: a first row of 0 ("0:3", "00:3") starts at index -1. */
  lemma RowZeroStartsBelowZero(a: string, b: string, r1: int, r2: int, rowCount: int, columnCount: int, format: Format)
    requires Digits(a) && Digits(b) && r1 == Decimal(a) && r2 == Decimal(b) && format != Columns
    requires r1 == 0
    ensures IndexNameBox(a + ":" + b, rowCount, columnCount, format).Ok?
    ensures IndexNameBox(a + ":" + b, rowCount, columnCount, format).value.startRowIndex == -1
  {
    RowRangeBox(a, b, r1, r2, rowCount, columnCount, format);
  }

  /** Nor is the order of the bounds checked: "5:3" starts after it ends. */
  lemma RowReversedExample(rowCount: int, columnCount: int, format: Format)
    requires format != Columns
    ensures IndexNameBox("5:3", rowCount, columnCount, format) == Ok(GridRange(4, 3, 0, columnCount))
  {
    assert Decimal("5") == 5 && Decimal("3") == 3;
    assert "5" + ":" + "3" == "5:3";
    RowRangeBox("5", "3", 5, 3, rowCount, columnCount, format);
  }

  /** A row range is refused under COLUMNS. */
  lemma RowRangeRefusedExample(rowCount: int, columnCount: int)
    ensures IndexNameBox("3:5", rowCount, columnCount, Columns) == Err(InvalidNameBox("3:5"))
  {
    ColumnsRefuseDigits("3:5", rowCount, columnCount);
  }

  /** "B:D" is columns 2 to 4 down the sheet. */
  lemma ColumnRangeExample(rowCount: int, columnCount: int, format: Format)
    requires format != Rows
    ensures IndexNameBox("B:D", rowCount, columnCount, format) == Ok(GridRange(0, rowCount, 1, 4))
  {
    assert ColumnCodec.Str2Count("B") == 2 && ColumnCodec.Str2Count("D") == 4;
    assert "B" + ":" + "D" == "B:D";
    ColumnRangeBox("B", "D", 2, 4, rowCount, columnCount, format);
  }

  /** "B:D\n" passes the guard and then fails in int(). */
  lemma ColumnRangeNewlineExample(rowCount: int, columnCount: int)
    ensures IndexNameBox("B:D\n", rowCount, columnCount, Normal) == Err(InvalidLiteral("\n"))
  {
    assert "B" + ":" + "D" + "\n" == "B:D\n";
    ColumnRangeBoxNewline("B", "D", rowCount, columnCount, Normal);
  }

  /** A column range is refused under ROWS. */
  lemma ColumnRangeRefusedExample(rowCount: int, columnCount: int)
    ensures IndexNameBox("B:D", rowCount, columnCount, Rows) == Err(InvalidNameBox("B:D"))
  {
    RowsRefuseLetters("B:D", rowCount, columnCount);
  }
}
