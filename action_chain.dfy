/**
 * ActionChain's request queue: each builder looks the sheet up, resolves its name boxes
 * and appends one batchUpdate request for the Google Sheets API; perform hands the queue
 * to the spreadsheet's execute call and empties it.
 */
module Actions {
  import opened Errors
  import ColumnCodec
  import NameBox

  /** ActionChain.AUTO: the pixel size that asks for automatic resizing. */
  const AUTO: int := -1
  const MIN_PIXEL_SIZE: int := 2
  const MAX_PIXEL_SIZE: int := 2000

  /** What the spreadsheet's sheet map holds for one sheet title (the fields ActionChain reads). */
  datatype SheetInfo = SheetInfo(sheetId: int, rowCount: int, columnCount: int)

  /** The "dimension" field of a request. */
  datatype Dimension = Rows | Columns

  /** A grid range of index_name_box with the "sheetId" key added to it. */
  datatype SheetRange = SheetRange(sheetId: int, range: NameBox.GridRange)

  /** The cut-paste destination: one cell. */
  datatype GridCoordinate = GridCoordinate(sheetId: int, rowIndex: int, columnIndex: int)

  /** A run of rows or of columns. */
  datatype DimensionRange = DimensionRange(sheetId: int, dimension: Dimension, startIndex: int, endIndex: int)

  /** One request of the batch, one constructor per kind the builders append. */
  datatype Request =
    | CutPaste(source: SheetRange, destination: GridCoordinate, pasteType: string)
    | CopyPaste(source: SheetRange, pasteDestination: SheetRange, pasteType: string)
    | AutoResizeDimensions(dimensions: DimensionRange)
    | UpdateDimensionProperties(range: DimensionRange)
    | AppendDimension(sheetId: int, dimension: Dimension, length: int)
    | DeleteDimension(range: DimensionRange)
    | InsertDimension(range: DimensionRange)

  /** Every sheet id a request names is id. */
  predicate OnSheet(req: Request, id: int) {
    match req
    case CutPaste(source, destination, _) => source.sheetId == id && destination.sheetId == id
    case CopyPaste(source, destination, _) => source.sheetId == id && destination.sheetId == id
    case AutoResizeDimensions(range) => range.sheetId == id
    case UpdateDimensionProperties(range) => range.sheetId == id
    case AppendDimension(sheetId, _, _) => sheetId == id
    case DeleteDimension(range) => range.sheetId == id
    case InsertDimension(range) => range.sheetId == id
  }

  /** self._spreadsheet.sheets[sheet]: a KeyError when no sheet has that title. */
  function SheetOf(sheets: map<string, SheetInfo>, sheet: string): (r: Result<SheetInfo>)
    ensures r.Ok? <==> sheet in sheets
    ensures r.Ok? ==> r.value == sheets[sheet]
    ensures r.Err? ==> r.error == UnknownSheet(sheet)
  {
    if sheet in sheets then Ok(sheets[sheet]) else Err(UnknownSheet(sheet))
  }

  /** index_name_box against the size of one sheet. */
  function Resolve(info: SheetInfo, nameBox: string, format: NameBox.Format): Result<NameBox.GridRange> {
    NameBox.IndexNameBox(nameBox, info.rowCount, info.columnCount, format)
  }

  /** The name-box format that resolves rows or columns. */
  function FormatFor(dimension: Dimension): (f: NameBox.Format)
    ensures f != NameBox.Normal
    ensures dimension == Rows <==> f == NameBox.Rows
  {
    if dimension == Rows then NameBox.Rows else NameBox.Columns
  }

  /** The rows or the columns a grid range covers, as startIndex and endIndex. */
  function Span(id: int, dimension: Dimension, g: NameBox.GridRange): (d: DimensionRange)
    ensures d.sheetId == id && d.dimension == dimension
    ensures dimension == Rows ==> d.startIndex == g.startRowIndex && d.endIndex == g.endRowIndex
    ensures dimension == Columns ==> d.startIndex == g.startColumnIndex && d.endIndex == g.endColumnIndex
  {
    match dimension
    case Rows => DimensionRange(id, Rows, g.startRowIndex, g.endRowIndex)
    case Columns => DimensionRange(id, Columns, g.startColumnIndex, g.endColumnIndex)
  }

  // ---------------------------------------------------------------------------
  // The request each builder appends, or the exception it raises first
  // ---------------------------------------------------------------------------

  /**
   * cut_paste: the whole cut range is the source, and the destination is only the top-left
   * cell of the paste range. The sheet lookup fails first, then the cut box, then the paste box.
   */
  function CutPasteRequest(sheets: map<string, SheetInfo>, sheet: string, cutBox: string, pasteBox: string,
                           pasteType: string): (r: Result<Request>)
    ensures r.Ok? <==> sheet in sheets && Resolve(sheets[sheet], cutBox, NameBox.Normal).Ok?
                                       && Resolve(sheets[sheet], pasteBox, NameBox.Normal).Ok?
    ensures r.Err? ==> r.error == (if sheet !in sheets then UnknownSheet(sheet)
                                   else if Resolve(sheets[sheet], cutBox, NameBox.Normal).Err?
                                   then Resolve(sheets[sheet], cutBox, NameBox.Normal).error
                                   else Resolve(sheets[sheet], pasteBox, NameBox.Normal).error)
    ensures r.Ok? ==> r.value.CutPaste? && OnSheet(r.value, sheets[sheet].sheetId) && r.value.pasteType == pasteType
    ensures r.Ok? ==> r.value.source.range == Resolve(sheets[sheet], cutBox, NameBox.Normal).value
    ensures r.Ok? ==> var paste := Resolve(sheets[sheet], pasteBox, NameBox.Normal).value;
                      r.value.destination.rowIndex == paste.startRowIndex
                      && r.value.destination.columnIndex == paste.startColumnIndex
  {
    match SheetOf(sheets, sheet)
    case Err(e) => Err(e)
    case Ok(info) =>
      match Resolve(info, cutBox, NameBox.Normal)
      case Err(e) => Err(e)
      case Ok(cut) =>
        match Resolve(info, pasteBox, NameBox.Normal)
        case Err(e) => Err(e)
        case Ok(paste) =>
          Ok(CutPaste(SheetRange(info.sheetId, cut),
                      GridCoordinate(info.sheetId, paste.startRowIndex, paste.startColumnIndex), pasteType))
  }

  /**
   * copy_paste: both the copy range and the whole paste range go into the request. The
   * sheet lookup fails first, then the copy box, then the paste box.
   */
  function CopyPasteRequest(sheets: map<string, SheetInfo>, sheet: string, copyBox: string, pasteBox: string,
                            pasteType: string): (r: Result<Request>)
    ensures r.Ok? <==> sheet in sheets && Resolve(sheets[sheet], copyBox, NameBox.Normal).Ok?
                                       && Resolve(sheets[sheet], pasteBox, NameBox.Normal).Ok?
    ensures r.Err? ==> r.error == (if sheet !in sheets then UnknownSheet(sheet)
                                   else if Resolve(sheets[sheet], copyBox, NameBox.Normal).Err?
                                   then Resolve(sheets[sheet], copyBox, NameBox.Normal).error
                                   else Resolve(sheets[sheet], pasteBox, NameBox.Normal).error)
    ensures r.Ok? ==> r.value.CopyPaste? && OnSheet(r.value, sheets[sheet].sheetId) && r.value.pasteType == pasteType
    ensures r.Ok? ==> r.value.source.range == Resolve(sheets[sheet], copyBox, NameBox.Normal).value
    ensures r.Ok? ==> r.value.pasteDestination.range == Resolve(sheets[sheet], pasteBox, NameBox.Normal).value
  {
    match SheetOf(sheets, sheet)
    case Err(e) => Err(e)
    case Ok(info) =>
      match Resolve(info, copyBox, NameBox.Normal)
      case Err(e) => Err(e)
      case Ok(copy) =>
        match Resolve(info, pasteBox, NameBox.Normal)
        case Err(e) => Err(e)
        case Ok(paste) => Ok(CopyPaste(SheetRange(info.sheetId, copy), SheetRange(info.sheetId, paste), pasteType))
  }

  /** The pixel sizes the assert in resize_row and resize_column lets through. */
  predicate PixelSizeAllowed(pixelSize: int) {
    MIN_PIXEL_SIZE <= pixelSize <= MAX_PIXEL_SIZE
  }

  /**
   * resize_row and resize_column: AUTO asks for automatic resizing, any other size must pass
   * the assert and then asks for a dimension update that does not carry the size. The name
   * box is resolved, in the ROWS or COLUMNS format, before the size is checked.
   */
  function ResizeRequest(sheets: map<string, SheetInfo>, sheet: string, nameBox: string, pixelSize: int,
                         dimension: Dimension): (r: Result<Request>)
    ensures r.Ok? <==> sheet in sheets && Resolve(sheets[sheet], nameBox, FormatFor(dimension)).Ok?
                                       && (pixelSize == AUTO || PixelSizeAllowed(pixelSize))
    ensures r.Err? ==> r.error == (if sheet !in sheets then UnknownSheet(sheet)
                                   else if Resolve(sheets[sheet], nameBox, FormatFor(dimension)).Err?
                                   then Resolve(sheets[sheet], nameBox, FormatFor(dimension)).error
                                   else PixelSizeOutOfRange(pixelSize))
    ensures r.Ok? ==> (r.value.AutoResizeDimensions? <==> pixelSize == AUTO)
    ensures r.Ok? ==> (r.value.UpdateDimensionProperties? <==> pixelSize != AUTO)
    ensures r.Ok? ==> OnSheet(r.value, sheets[sheet].sheetId)
  {
    match SheetOf(sheets, sheet)
    case Err(e) => Err(e)
    case Ok(info) =>
      match Resolve(info, nameBox, FormatFor(dimension))
      case Err(e) => Err(e)
      case Ok(index) =>
        if pixelSize == AUTO then Ok(AutoResizeDimensions(Span(info.sheetId, dimension, index)))
        else if !PixelSizeAllowed(pixelSize) then Err(PixelSizeOutOfRange(pixelSize))
        else Ok(UpdateDimensionProperties(Span(info.sheetId, dimension, index)))
  }

  /** The rows or columns a resize request covers. */
  function ResizedRange(req: Request): DimensionRange
    requires req.AutoResizeDimensions? || req.UpdateDimensionProperties?
  {
    if req.AutoResizeDimensions? then req.dimensions else req.range
  }

  /** append_row and append_column: number new rows or columns at the end of the sheet. */
  function AppendRequest(sheets: map<string, SheetInfo>, sheet: string, number: int, dimension: Dimension)
    : (r: Result<Request>)
    ensures r.Ok? <==> sheet in sheets
    ensures r.Err? ==> r.error == UnknownSheet(sheet)
    ensures r.Ok? ==> r.value.AppendDimension? && OnSheet(r.value, sheets[sheet].sheetId)
                      && r.value.dimension == dimension && r.value.length == number
  {
    match SheetOf(sheets, sheet)
    case Err(e) => Err(e)
    case Ok(info) => Ok(AppendDimension(info.sheetId, dimension, number))
  }

  /** delete_row and delete_column: the rows or columns of a name box in the ROWS or COLUMNS format. */
  function DeleteRequest(sheets: map<string, SheetInfo>, sheet: string, nameBox: string, dimension: Dimension)
    : (r: Result<Request>)
    ensures r.Ok? <==> sheet in sheets && Resolve(sheets[sheet], nameBox, FormatFor(dimension)).Ok?
    ensures r.Err? ==> r.error == (if sheet !in sheets then UnknownSheet(sheet)
                                   else Resolve(sheets[sheet], nameBox, FormatFor(dimension)).error)
    ensures r.Ok? ==> r.value.DeleteDimension? && OnSheet(r.value, sheets[sheet].sheetId)
    ensures r.Ok? ==> r.value.range
                      == Span(sheets[sheet].sheetId, dimension, Resolve(sheets[sheet], nameBox, FormatFor(dimension)).value)
  {
    match SheetOf(sheets, sheet)
    case Err(e) => Err(e)
    case Ok(info) =>
      match Resolve(info, nameBox, FormatFor(dimension))
      case Err(e) => Err(e)
      case Ok(index) => Ok(DeleteDimension(Span(info.sheetId, dimension, index)))
  }

  /** insert_row: from start_row - 1 up to start_row + number, with no check on either. */
  function InsertRowRequest(sheets: map<string, SheetInfo>, sheet: string, number: int, startRow: int)
    : (r: Result<Request>)
    ensures r.Ok? <==> sheet in sheets
    ensures r.Err? ==> r.error == UnknownSheet(sheet)
    ensures r.Ok? ==> r.value.InsertDimension? && OnSheet(r.value, sheets[sheet].sheetId)
                      && r.value.range.dimension == Rows
  {
    match SheetOf(sheets, sheet)
    case Err(e) => Err(e)
    case Ok(info) => Ok(InsertDimension(DimensionRange(info.sheetId, Rows, startRow - 1, startRow + number)))
  }

  /** insert_column: the same arithmetic as insert_row on str2count(start_column). */
  function InsertColumnRequest(sheets: map<string, SheetInfo>, sheet: string, number: int, startColumn: string)
    : (r: Result<Request>)
    ensures r.Ok? <==> sheet in sheets
    ensures r.Err? ==> r.error == UnknownSheet(sheet)
    ensures r.Ok? ==> r.value.InsertDimension? && OnSheet(r.value, sheets[sheet].sheetId)
                      && r.value.range.dimension == Columns
  {
    var col := ColumnCodec.Str2Count(startColumn);
    match SheetOf(sheets, sheet)
    case Err(e) => Err(e)
    case Ok(info) => Ok(InsertDimension(DimensionRange(info.sheetId, Columns, col - 1, col + number)))
  }

  // ---------------------------------------------------------------------------
  // How the requests relate
  // ---------------------------------------------------------------------------

  /**
   * cut_paste and copy_paste resolve the same boxes the same way: they fail together with
   * the same exception, share the source, and the cut destination is the top-left cell of
   * the copy destination.
   */
  lemma CutPasteIsCopyPasteCorner(sheets: map<string, SheetInfo>, sheet: string, sourceBox: string, pasteBox: string,
                                  pasteType: string)
    ensures CutPasteRequest(sheets, sheet, sourceBox, pasteBox, pasteType).Ok?
        <==> CopyPasteRequest(sheets, sheet, sourceBox, pasteBox, pasteType).Ok?
    ensures CutPasteRequest(sheets, sheet, sourceBox, pasteBox, pasteType).Err? ==>
      CutPasteRequest(sheets, sheet, sourceBox, pasteBox, pasteType).error
        == CopyPasteRequest(sheets, sheet, sourceBox, pasteBox, pasteType).error
    ensures CutPasteRequest(sheets, sheet, sourceBox, pasteBox, pasteType).Ok? ==>
      var cut, copy := CutPasteRequest(sheets, sheet, sourceBox, pasteBox, pasteType).value,
                       CopyPasteRequest(sheets, sheet, sourceBox, pasteBox, pasteType).value;
      cut.source == copy.source
      && cut.destination == GridCoordinate(copy.pasteDestination.sheetId, copy.pasteDestination.range.startRowIndex,
                                           copy.pasteDestination.range.startColumnIndex)
  {
  }

  /** The size given to resize_row or resize_column never reaches the request. */
  lemma ResizeIgnoresPixelSize(sheets: map<string, SheetInfo>, sheet: string, nameBox: string, p: int, q: int,
                               dimension: Dimension)
    requires PixelSizeAllowed(p) && PixelSizeAllowed(q)
    ensures ResizeRequest(sheets, sheet, nameBox, p, dimension) == ResizeRequest(sheets, sheet, nameBox, q, dimension)
  {
  }

  /**
   * A resize, automatic or with an allowed size, and a delete of the same name box cover
   * the same rows or columns, and fail together with the same exception.
   */
  lemma ResizeCoversDeletedRange(sheets: map<string, SheetInfo>, sheet: string, nameBox: string, pixelSize: int,
                                 dimension: Dimension)
    requires pixelSize == AUTO || PixelSizeAllowed(pixelSize)
    ensures ResizeRequest(sheets, sheet, nameBox, pixelSize, dimension).Ok?
        <==> DeleteRequest(sheets, sheet, nameBox, dimension).Ok?
    ensures ResizeRequest(sheets, sheet, nameBox, pixelSize, dimension).Err? ==>
      ResizeRequest(sheets, sheet, nameBox, pixelSize, dimension).error == DeleteRequest(sheets, sheet, nameBox, dimension).error
    ensures ResizeRequest(sheets, sheet, nameBox, pixelSize, dimension).Ok? ==>
      ResizedRange(ResizeRequest(sheets, sheet, nameBox, pixelSize, dimension).value)
        == DeleteRequest(sheets, sheet, nameBox, dimension).value.range
  {
  }

  /** A size outside 2..2000 other than AUTO fails the assert once sheet and name box are good. */
  lemma ResizeRejectsPixelSize(sheets: map<string, SheetInfo>, sheet: string, nameBox: string, pixelSize: int,
                               dimension: Dimension)
    requires pixelSize != AUTO && !PixelSizeAllowed(pixelSize)
    requires sheet in sheets && Resolve(sheets[sheet], nameBox, FormatFor(dimension)).Ok?
    ensures ResizeRequest(sheets, sheet, nameBox, pixelSize, dimension) == Err(PixelSizeOutOfRange(pixelSize))
  {
  }

  /** insert_row covers number + 1 rows, from start_row - 1: one more than it inserts. */
  lemma InsertRowSpan(sheets: map<string, SheetInfo>, sheet: string, number: int, startRow: int)
    requires sheet in sheets
    ensures InsertRowRequest(sheets, sheet, number, startRow).Ok?
    ensures var range := InsertRowRequest(sheets, sheet, number, startRow).value.range;
      range.startIndex == startRow - 1 && range.endIndex - range.startIndex == number + 1
  {
  }

  /** insert_column is insert_row's arithmetic on the column number of its letters. */
  lemma InsertColumnIsInsertRowAt(sheets: map<string, SheetInfo>, sheet: string, number: int, startColumn: string)
    ensures InsertColumnRequest(sheets, sheet, number, startColumn).Ok?
        <==> InsertRowRequest(sheets, sheet, number, ColumnCodec.Str2Count(startColumn)).Ok?
    ensures InsertColumnRequest(sheets, sheet, number, startColumn).Ok? ==>
      var column := InsertColumnRequest(sheets, sheet, number, startColumn).value.range;
      var row := InsertRowRequest(sheets, sheet, number, ColumnCodec.Str2Count(startColumn)).value.range;
      column == row.(dimension := Columns)
  {
  }

  /**
   * Inserting at the column that count2str names for n starts at index n - 1: the numeric
   * round trip of the codec holds even where count2str writes a '@'.
   */
  lemma InsertColumnNamedByCount2Str(sheets: map<string, SheetInfo>, sheet: string, number: int, n: int)
    requires sheet in sheets && n >= -64
    ensures ColumnCodec.Encode(n).Ok?
    ensures var r := InsertColumnRequest(sheets, sheet, number, ColumnCodec.Encode(n).value);
      r.Ok? && r.value.range.startIndex == n - 1 && r.value.range.endIndex == n + number
  {
    ColumnCodec.Count2StrNumericRoundTrip(n);
  }

  /** With the corrected column names, inserting at the column named for n starts at index n - 1. */
  lemma InsertColumnAtName(sheets: map<string, SheetInfo>, sheet: string, number: int, n: int)
    requires sheet in sheets && n >= 1
    ensures var r := InsertColumnRequest(sheets, sheet, number, ColumnCodec.BijectiveEncode(n));
      r.Ok? && r.value.range.startIndex == n - 1 && r.value.range.endIndex == n + number
  {
    ColumnCodec.BijectiveDecodeEncode(n);
  }

  /** delete_row on "a:b" removes rows a to b: the indices r1 - 1 up to r2. */
  lemma DeleteRowRange(sheets: map<string, SheetInfo>, sheet: string, a: string, b: string, r1: int, r2: int)
    requires sheet in sheets
    requires NameBox.Digits(a) && NameBox.Digits(b) && r1 == NameBox.Decimal(a) && r2 == NameBox.Decimal(b)
    ensures DeleteRequest(sheets, sheet, a + ":" + b, Rows)
         == Ok(DeleteDimension(DimensionRange(sheets[sheet].sheetId, Rows, r1 - 1, r2)))
  {
    var info := sheets[sheet];
    NameBox.RowRangeBox(a, b, r1, r2, info.rowCount, info.columnCount, NameBox.Rows);
  }

  /** delete_column on "X:Y" removes columns X to Y: the indices c1 - 1 up to c2. */
  lemma DeleteColumnRange(sheets: map<string, SheetInfo>, sheet: string, x: string, y: string, c1: int, c2: int)
    requires sheet in sheets
    requires ColumnCodec.Letters(x) && ColumnCodec.Letters(y)
    requires c1 == ColumnCodec.Str2Count(x) && c2 == ColumnCodec.Str2Count(y)
    ensures DeleteRequest(sheets, sheet, x + ":" + y, Columns)
         == Ok(DeleteDimension(DimensionRange(sheets[sheet].sheetId, Columns, c1 - 1, c2)))
  {
    var info := sheets[sheet];
    NameBox.ColumnRangeBox(x, y, c1, c2, info.rowCount, info.columnCount, NameBox.Columns);
  }

  /** The column builders refuse a name box that starts with a digit, the row builders one that starts with a letter. */
  lemma WrongAxisRefused(sheets: map<string, SheetInfo>, sheet: string, nameBox: string, dimension: Dimension)
    requires sheet in sheets && |nameBox| > 0
    requires dimension == Columns ==> NameBox.IsDigit(nameBox[0])
    requires dimension == Rows ==> ColumnCodec.IsUpper(nameBox[0])
    ensures DeleteRequest(sheets, sheet, nameBox, dimension) == Err(InvalidNameBox(nameBox))
  {
    var info := sheets[sheet];
    if dimension == Rows {
      NameBox.RowsRefuseLetters(nameBox, info.rowCount, info.columnCount);
    } else {
      NameBox.ColumnsRefuseDigits(nameBox, info.rowCount, info.columnCount);
    }
  }

  /** cut_paste into a single cell "Xa" moves the cut range to row a - 1, column str2count(X) - 1. */
  lemma CutPasteToCell(sheets: map<string, SheetInfo>, sheet: string, cutBox: string, x: string, d: string,
                       c: int, r: int, pasteType: string)
    requires sheet in sheets && Resolve(sheets[sheet], cutBox, NameBox.Normal).Ok?
    requires ColumnCodec.Letters(x) && NameBox.Digits(d) && c == ColumnCodec.Str2Count(x) && r == NameBox.Decimal(d)
    ensures CutPasteRequest(sheets, sheet, cutBox, x + d, pasteType).Ok?
    ensures CutPasteRequest(sheets, sheet, cutBox, x + d, pasteType).value.destination
         == GridCoordinate(sheets[sheet].sheetId, r - 1, c - 1)
  {
    var info := sheets[sheet];
    NameBox.CellBox(x, d, c, r, info.rowCount, info.columnCount);
  }

  // ---------------------------------------------------------------------------
  // The queue
  // ---------------------------------------------------------------------------

  /** What a builder does with the queue: append the request, or raise and leave it as it was. */
  predicate Queued(before: seq<Request>, after: seq<Request>, r: Result<Request>, outcome: Outcome) {
    match r
    case Ok(req) => after == before + [req] && outcome == Pass
    case Err(e) => after == before && outcome == Fail(e)
  }

  /** The requests of the builder calls that raised nothing, in the order of the calls. */
  function Built(rs: seq<Result<Request>>): (q: seq<Request>)
    ensures |q| <= |rs|
    ensures (forall i :: 0 <= i < |rs| ==> rs[i].Err?) ==> q == []
  {
    if rs == [] then []
    else Built(rs[..|rs| - 1]) + (if rs[|rs| - 1].Ok? then [rs[|rs| - 1].value] else [])
  }

  /** A run of builder calls: call i found queues[i], built rs[i] and left queues[i + 1]. */
  predicate Run(queues: seq<seq<Request>>, rs: seq<Result<Request>>, outcomes: seq<Outcome>) {
    |queues| == |rs| + 1 && |outcomes| == |rs|
    && forall i :: 0 <= i < |rs| ==> Queued(queues[i], queues[i + 1], rs[i], outcomes[i])
  }

  /**
   * After any run of builder calls the queue is the one before the run with the requests of
   * the calls that raised nothing appended, in the order of the calls: a builder that
   * raises leaves no partial request behind.
   */
  lemma {:induction false} RunAppendsBuilt(queues: seq<seq<Request>>, rs: seq<Result<Request>>, outcomes: seq<Outcome>)
    requires Run(queues, rs, outcomes)
    ensures queues[|rs|] == queues[0] + Built(rs)
  {
    if rs != [] {
      var n := |rs| - 1;
      assert Run(queues[..n + 1], rs[..n], outcomes[..n]) by {
        forall i | 0 <= i < n
          ensures Queued(queues[..n + 1][i], queues[..n + 1][i + 1], rs[..n][i], outcomes[..n][i])
        {
          assert Queued(queues[i], queues[i + 1], rs[i], outcomes[i]);
        }
      }
      RunAppendsBuilt(queues[..n + 1], rs[..n], outcomes[..n]);
      assert Queued(queues[n], queues[n + 1], rs[n], outcomes[n]);
    }
  }

  /** Every request of the batch names the id of one of the given sheets. */
  predicate OnSheets(sheets: map<string, SheetInfo>, rs: seq<Request>) {
    forall i :: 0 <= i < |rs| ==> exists t :: t in sheets && OnSheet(rs[i], sheets[t].sheetId)
  }

  /** The queue of requests an ActionChain builds up for one spreadsheet. */
  class ActionChain {
    /** self._spreadsheet.sheets: title to sheet id and grid size. */
    const sheets: map<string, SheetInfo>
    /** self._requests */
    var requests: seq<Request>

    /** Every queued request names the id of a sheet of the spreadsheet. */
    predicate Valid()
      reads this
    {
      OnSheets(sheets, requests)
    }

    constructor(sheets: map<string, SheetInfo>)
      ensures this.sheets == sheets && requests == [] && Valid()
    {
      this.sheets := sheets;
      requests := [];
    }

    /** self._requests.append(...), reached only when building the request raised nothing. */
    method Push(r: Result<Request>, ghost sheet: string) returns (outcome: Outcome)
      requires Valid()
      requires r.Ok? ==> sheet in sheets && OnSheet(r.value, sheets[sheet].sheetId)
      modifies this
      ensures Queued(old(requests), requests, r, outcome) && Valid()
    {
      match r
      case Err(e) =>
        outcome := Fail(e);
      case Ok(req) =>
        requests := requests + [req];
        outcome := Pass;
        forall i | 0 <= i < |requests|
          ensures exists t :: t in sheets && OnSheet(requests[i], sheets[t].sheetId)
        {
          if i == |requests| - 1 {
            assert OnSheet(requests[i], sheets[sheet].sheetId);
          } else {
            assert requests[i] == old(requests)[i];
          }
        }
    }

    method CutPaste(sheet: string, cutBox: string, pasteBox: string, pasteType: string) returns (outcome: Outcome)
      requires Valid()
      modifies this
      ensures Queued(old(requests), requests, CutPasteRequest(sheets, sheet, cutBox, pasteBox, pasteType), outcome)
      ensures Valid()
    {
      outcome := Push(CutPasteRequest(sheets, sheet, cutBox, pasteBox, pasteType), sheet);
    }

    method CopyPaste(sheet: string, copyBox: string, pasteBox: string, pasteType: string) returns (outcome: Outcome)
      requires Valid()
      modifies this
      ensures Queued(old(requests), requests, CopyPasteRequest(sheets, sheet, copyBox, pasteBox, pasteType), outcome)
      ensures Valid()
    {
      outcome := Push(CopyPasteRequest(sheets, sheet, copyBox, pasteBox, pasteType), sheet);
    }

    method ResizeRow(sheet: string, nameBox: string, pixelSize: int) returns (outcome: Outcome)
      requires Valid()
      modifies this
      ensures Queued(old(requests), requests, ResizeRequest(sheets, sheet, nameBox, pixelSize, Rows), outcome)
      ensures Valid()
    {
      outcome := Push(ResizeRequest(sheets, sheet, nameBox, pixelSize, Rows), sheet);
    }

    method ResizeColumn(sheet: string, nameBox: string, pixelSize: int) returns (outcome: Outcome)
      requires Valid()
      modifies this
      ensures Queued(old(requests), requests, ResizeRequest(sheets, sheet, nameBox, pixelSize, Columns), outcome)
      ensures Valid()
    {
      outcome := Push(ResizeRequest(sheets, sheet, nameBox, pixelSize, Columns), sheet);
    }

    method AppendRow(sheet: string, number: int) returns (outcome: Outcome)
      requires Valid()
      modifies this
      ensures Queued(old(requests), requests, AppendRequest(sheets, sheet, number, Rows), outcome)
      ensures Valid()
    {
      outcome := Push(AppendRequest(sheets, sheet, number, Rows), sheet);
    }

    method AppendColumn(sheet: string, number: int) returns (outcome: Outcome)
      requires Valid()
      modifies this
      ensures Queued(old(requests), requests, AppendRequest(sheets, sheet, number, Columns), outcome)
      ensures Valid()
    {
      outcome := Push(AppendRequest(sheets, sheet, number, Columns), sheet);
    }

    method DeleteRow(sheet: string, nameBox: string) returns (outcome: Outcome)
      requires Valid()
      modifies this
      ensures Queued(old(requests), requests, DeleteRequest(sheets, sheet, nameBox, Rows), outcome)
      ensures Valid()
    {
      outcome := Push(DeleteRequest(sheets, sheet, nameBox, Rows), sheet);
    }

    method DeleteColumn(sheet: string, nameBox: string) returns (outcome: Outcome)
      requires Valid()
      modifies this
      ensures Queued(old(requests), requests, DeleteRequest(sheets, sheet, nameBox, Columns), outcome)
      ensures Valid()
    {
      outcome := Push(DeleteRequest(sheets, sheet, nameBox, Columns), sheet);
    }

    method InsertRow(sheet: string, number: int, startRow: int) returns (outcome: Outcome)
      requires Valid()
      modifies this
      ensures Queued(old(requests), requests, InsertRowRequest(sheets, sheet, number, startRow), outcome)
      ensures Valid()
    {
      outcome := Push(InsertRowRequest(sheets, sheet, number, startRow), sheet);
    }

    method InsertColumn(sheet: string, number: int, startColumn: string) returns (outcome: Outcome)
      requires Valid()
      modifies this
      ensures Queued(old(requests), requests, InsertColumnRequest(sheets, sheet, number, startColumn), outcome)
      ensures Valid()
    {
      outcome := Push(InsertColumnRequest(sheets, sheet, number, startColumn), sheet);
    }

    /**
     * perform: the queued requests, in order, go to execute, and each of them names a sheet
     * of the spreadsheet; the queue is emptied once execute returns and kept when it raises
     * (the Err that execute gives back).
     */
    method Perform<R>(execute: seq<Request> -> Result<R>) returns (response: Result<R>)
      requires Valid()
      modifies this
      ensures response == execute(old(requests))
      ensures OnSheets(sheets, old(requests))
      ensures response.Ok? ==> requests == []
      ensures response.Err? ==> requests == old(requests)
      ensures Valid()
    {
      response := execute(requests);
      if response.Ok? {
        requests := [];
      }
    }
  }
}
