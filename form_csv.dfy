/**
 * The CSV export of `components/EditableDataForm.tsx` (`handleExportCsv`): the record is
 * written section by section as rows of cells, every value cell quoted as section 2 of
 * RFC 4180 describes, cells joined by `,` and rows by a line feed.
 */
module FormCsv {
  import opened Wrappers
  import opened Js
  import opened Types
  import opened Form
  import opened CsvField

  // ---------------------------------------------------------------------------
  // escapeCsvCell

  /** The text a value cell stands for: `String(value)`, or nothing for an absent value. */
  function CellText(v: Value): string {
    if v.Null? then "" else ValueString(v)
  }

  /**
   * `escapeCsvCell`, with its two branches as written: a text holding `,`, `"` or a line
   * feed has its quotes doubled, any other text is only wrapped in quotes.
   */
  function EscapeCsvCell(v: Value): string {
    if v.Null? then "\"\""
    else
      var s := ValueString(v);
      if Contains(s, ",") || Contains(s, "\"") || Contains(s, "\n") then "\"" + DoubleQuotes(s) + "\""
      else "\"" + s + "\""
  }

  /** Both branches write the same thing: the quoted field of the cell's text. */
  lemma EscapeCsvCellIsQuoted(v: Value)
    ensures EscapeCsvCell(v) == Quoted(CellText(v))
  {
    if !v.Null? {
      var s := ValueString(v);
      if !Contains(s, "\"") {
        ContainsChar(s, '"');
        DoubleQuotesWithoutQuotes(s);
      }
    }
  }

  /** Reading an escaped cell as a quoted field gives back exactly the cell's text. */
  lemma EscapeCsvCellRoundTrip(v: Value, s: string)
    ensures Unquote(EscapeCsvCell(v)) == Some(s) <==> s == CellText(v)
  {
    EscapeCsvCellIsQuoted(v);
    QuotedRoundTrip(CellText(v));
  }

  /** Two values are written alike exactly when they stand for the same text. */
  lemma EscapeCsvCellInjective(v: Value, w: Value)
    ensures EscapeCsvCell(v) == EscapeCsvCell(w) <==> CellText(v) == CellText(w)
  {
    EscapeCsvCellRoundTrip(v, CellText(v));
    EscapeCsvCellRoundTrip(w, CellText(v));
  }

  // ---------------------------------------------------------------------------
  // The rows

  type Row = seq<string>

  const RiskSummaryTitle := "Risk Summary"
  const AnagraficaTitle := "General Information (Anagrafica)"
  const SublimitsTitle := "Sublimits"
  const BuildingTitle := "Building Details (Dettaglio Edifici)"
  const FieldValueHeader: Row := ["Field", "Value"]
  const DataStatusCaption := "Data Status"
  const BuildingNotesCaption := "Building Notes"

  /** A `[label, escapeCsvCell(value)]` row. */
  function FieldRow(c: Cell): Row {
    [c.caption, EscapeCsvCell(c.value)]
  }

  /** A section of `Field`/`Value` rows: its title, the header, one row per cell and an empty row. */
  function KeyValueBlock(title: string, cells: seq<Cell>): (r: seq<Row>)
    ensures |r| == |cells| + 3
  {
    [[title], FieldValueHeader] + MapSeq(cells, FieldRow) + [[]]
  }

  /** The block's title row, its header, the row of each cell and the closing empty row. */
  lemma KeyValueBlockAt(title: string, cells: seq<Cell>, i: int)
    requires 0 <= i < |cells|
    ensures KeyValueBlock(title, cells)[0] == [title]
    ensures KeyValueBlock(title, cells)[1] == FieldValueHeader
    ensures KeyValueBlock(title, cells)[i + 2] == [cells[i].caption, EscapeCsvCell(cells[i].value)]
    ensures KeyValueBlock(title, cells)[|cells| + 2] == []
  {
    MapSeqAt(cells, FieldRow, i);
  }

  /** The configured anagrafica fields, then `Data Status`. */
  function AnagraficaExportCells(r: Anagrafica): (c: seq<Cell>)
    ensures |c| == 24
  {
    AnagraficaCells(r) + [Cell(DataStatusCaption, OfText(r.dataStatus))]
  }

  /** The configured property fields, then `Property Notes` and `Data Status`. */
  function PropertyExportCells(r: PropertyDetails): (c: seq<Cell>)
    ensures |c| == 14
  {
    PropertyCells(r) + [Cell("Property Notes", OfText(r.propertyNotes)), Cell(DataStatusCaption, OfText(r.dataStatus))]
  }

  /** The configured general-liability fields, then its notes and `Data Status`. */
  function GeneralLiabilityExportCells(r: GeneralLiabilityDetails): (c: seq<Cell>)
    ensures |c| == 11
  {
    GeneralLiabilityCells(r)
      + [Cell("General Liability Notes", OfText(r.generalLiabilityNotes)), Cell(DataStatusCaption, OfText(r.dataStatus))]
  }

  /** The configured product-liability fields, then its notes and `Data Status`. */
  function ProductLiabilityExportCells(r: ProductLiabilityDetails): (c: seq<Cell>)
    ensures |c| == 8
  {
    ProductLiabilityCells(r)
      + [Cell("Product Liability Notes", OfText(r.productLiabilityNotes)), Cell(DataStatusCaption, OfText(r.dataStatus))]
  }

  /** The risk summary: its title, its escaped text and an empty row. */
  function RiskBlock(summary: Value): (b: seq<Row>)
    ensures |b| == 3
  {
    [[RiskSummaryTitle], [EscapeCsvCell(summary)], []]
  }

  /** `escapeCsvCell` of a cell's value. */
  function EscapedValue(c: Cell): string {
    EscapeCsvCell(c.value)
  }

  /** `sublimitFields.map(field => escapeCsvCell(sublimit[field.key]))`. */
  function SublimitRow(s: Sublimit): (r: Row)
    ensures |r| == |SublimitFields|
  {
    MapSeq(SublimitCells(s), EscapedValue)
  }

  /** The configured building fields, then the escaped building notes. */
  function BuildingRow(b: DettaglioEdifici): (r: Row)
    ensures |r| == |BuildingFields| + 1
  {
    MapSeq(BuildingCells(b), EscapedValue) + [EscapeCsvCell(OfText(b.buildingNotes))]
  }

  /** `sublimitFields.map(f => f.label)`. */
  const SublimitHeader: Row := MapSeq(SublimitFields, Caption)

  /** `dettaglioEdificiFields.map(f => f.label).concat(['Building Notes'])`. */
  const BuildingHeader: Row := MapSeq(BuildingFields, Caption) + [BuildingNotesCaption]

  /** A table: its title, its header, one row per element and an empty row; nothing when empty. */
  function TableBlock<T>(title: string, header: Row, xs: seq<T>, row: T -> Row): (r: seq<Row>)
    ensures |r| == if xs == [] then 0 else |xs| + 3
  {
    if xs == [] then [] else [[title], header] + MapSeq(xs, row) + [[]]
  }

  /** A non-empty table: its title, its header and the `j`-th element's row two rows down. */
  lemma TableBlockAt<T>(title: string, header: Row, xs: seq<T>, row: T -> Row, j: int)
    requires 0 <= j < |xs|
    ensures TableBlock(title, header, xs, row)[0] == [title]
    ensures TableBlock(title, header, xs, row)[1] == header
    ensures TableBlock(title, header, xs, row)[j + 2] == row(xs[j])
    ensures TableBlock(title, header, xs, row)[|xs| + 2] == []
  {
    MapSeqAt(xs, row, j);
  }

  /** The sublimits table, present only for a non-empty array. */
  function SublimitBlock(subs: seq<Sublimit>): (r: seq<Row>)
    ensures |r| == if subs == [] then 0 else |subs| + 3
  {
    TableBlock(SublimitsTitle, SublimitHeader, subs, SublimitRow)
  }

  /** The building table, present only for a non-empty array. */
  function BuildingBlock(bs: seq<DettaglioEdifici>): (r: seq<Row>)
    ensures |r| == if bs == [] then 0 else |bs| + 3
  {
    TableBlock(BuildingTitle, BuildingHeader, bs, BuildingRow)
  }

  /** Every sublimit row has as many cells as the sublimit header. */
  lemma SublimitRowFitsHeader(s: Sublimit)
    ensures |SublimitRow(s)| == |SublimitHeader|
  {
  }

  /** Every building row has as many cells as the building header. */
  lemma BuildingRowFitsHeader(b: DettaglioEdifici)
    ensures |BuildingRow(b)| == |BuildingHeader|
  {
  }

  /** What the export reads from the record: the summary, the four field lists and the two arrays. */
  datatype CsvParts = CsvParts(
    summary: Value,
    anagrafica: seq<Cell>,
    property: seq<Cell>,
    generalLiability: seq<Cell>,
    productLiability: seq<Cell>,
    sublimits: seq<Sublimit>,
    buildings: seq<DettaglioEdifici>)

  /** The four field lists have their configured sizes: 23, 12, 9 and 6 fields plus their extra rows. */
  predicate WellSized(p: CsvParts) {
    |p.anagrafica| == 24 && |p.property| == 14 && |p.generalLiability| == 11 && |p.productLiability| == 8
  }

  /** The parts of a record. */
  function PartsOf(d: ExtractedData): (p: CsvParts)
    ensures WellSized(p)
    ensures p.sublimits == d.sublimits && p.buildings == d.dettaglioEdifici
  {
    CsvParts(
      OfText(d.riskSummary.riskSummary),
      AnagraficaExportCells(d.anagrafica),
      PropertyExportCells(d.propertyDetails),
      GeneralLiabilityExportCells(d.generalLiabilityDetails),
      ProductLiabilityExportCells(d.productLiabilityDetails),
      d.sublimits,
      d.dettaglioEdifici)
  }

  /** The rows of the parts, in the order `handleExportCsv` pushes them. */
  function RowsOf(p: CsvParts): seq<Row> {
    RiskBlock(p.summary)
      + KeyValueBlock(AnagraficaTitle, p.anagrafica)
      + KeyValueBlock(PropertyDetailsTitle, p.property)
      + KeyValueBlock(GeneralLiabilityTitle, p.generalLiability)
      + KeyValueBlock(ProductLiabilityTitle, p.productLiability)
      + SublimitBlock(p.sublimits)
      + BuildingBlock(p.buildings)
  }

  /** Every row of the export of a record. */
  function CsvRows(d: ExtractedData): seq<Row> {
    RowsOf(PartsOf(d))
  }

  /** Each part of a seven-part concatenation is the slice at its offset. */
  lemma SevenParts<T>(p0: seq<T>, p1: seq<T>, p2: seq<T>, p3: seq<T>, p4: seq<T>, p5: seq<T>, p6: seq<T>)
    ensures var x := p0 + p1 + p2 + p3 + p4 + p5 + p6;
      var o1 := |p0|; var o2 := o1 + |p1|; var o3 := o2 + |p2|; var o4 := o3 + |p3|; var o5 := o4 + |p4|;
      x[..o1] == p0 && x[o1..o2] == p1 && x[o2..o3] == p2 && x[o3..o4] == p3 && x[o4..o5] == p4
      && x[o5..] == p5 + p6
  {
    var x := p0 + p1 + p2 + p3 + p4 + p5 + p6;
    assert x == p0 + (p1 + (p2 + (p3 + (p4 + (p5 + p6)))));
  }

  /**
   * Where each section lies: the risk summary in rows 0-2, the four `Field`/`Value`
   * sections from rows 3, 30, 47 and 61, then the sublimits table and the building table:
   * 72 fixed rows, and each table adds its elements and three rows when present.
   */
  lemma CsvLayout(p: CsvParts)
    requires WellSized(p)
    ensures |RowsOf(p)| == 72 + |SublimitBlock(p.sublimits)| + |BuildingBlock(p.buildings)|
    ensures RowsOf(p)[..3] == RiskBlock(p.summary)
    ensures RowsOf(p)[3..30] == KeyValueBlock(AnagraficaTitle, p.anagrafica)
    ensures RowsOf(p)[30..47] == KeyValueBlock(PropertyDetailsTitle, p.property)
    ensures RowsOf(p)[47..61] == KeyValueBlock(GeneralLiabilityTitle, p.generalLiability)
    ensures RowsOf(p)[61..72] == KeyValueBlock(ProductLiabilityTitle, p.productLiability)
    ensures RowsOf(p)[72..] == SublimitBlock(p.sublimits) + BuildingBlock(p.buildings)
  {
    SevenParts(RiskBlock(p.summary),
      KeyValueBlock(AnagraficaTitle, p.anagrafica),
      KeyValueBlock(PropertyDetailsTitle, p.property),
      KeyValueBlock(GeneralLiabilityTitle, p.generalLiability),
      KeyValueBlock(ProductLiabilityTitle, p.productLiability),
      SublimitBlock(p.sublimits),
      BuildingBlock(p.buildings));
  }

  // ---------------------------------------------------------------------------
  // Building the rows

  /** The `fields.forEach(field => rows.push([field.label, escapeCsvCell(...)]))` loop. */
  method PushFieldRows(rows: seq<Row>, cells: seq<Cell>) returns (out: seq<Row>)
    ensures out == rows + MapSeq(cells, FieldRow)
  {
    out := rows;
    var j := 0;
    while j < |cells|
      invariant 0 <= j <= |cells|
      invariant out == rows + MapSeq(cells[..j], FieldRow)
    {
      out := out + [[cells[j].caption, EscapeCsvCell(cells[j].value)]];
      MapSeqStep(cells, FieldRow, j);
      j := j + 1;
    }
    assert cells[..j] == cells;
  }

  /** One `Field`/`Value` section: title, header, the field rows and the closing empty row. */
  method PushKeyValueBlock(rows: seq<Row>, title: string, cells: seq<Cell>) returns (out: seq<Row>)
    ensures out == rows + KeyValueBlock(title, cells)
  {
    out := rows + [[title]] + [FieldValueHeader];
    out := PushFieldRows(out, cells);
    out := out + [[]];
  }

  /** A table pushed row by row: nothing for an empty array. */
  method PushTableBlock<T>(rows: seq<Row>, title: string, header: Row, xs: seq<T>, row: T -> Row)
    returns (out: seq<Row>)
    ensures out == rows + TableBlock(title, header, xs, row)
  {
    out := rows;
    if |xs| > 0 {
      out := out + [[title]] + [header];
      var j := 0;
      while j < |xs|
        invariant 0 <= j <= |xs|
        invariant out == rows + [[title], header] + MapSeq(xs[..j], row)
      {
        out := out + [row(xs[j])];
        MapSeqStep(xs, row, j);
        j := j + 1;
      }
      assert xs[..j] == xs;
      out := out + [[]];
    }
  }

  /** The `rows` array `handleExportCsv` fills, section by section. */
  method BuildCsvRows(d: ExtractedData) returns (rows: seq<Row>)
    ensures rows == CsvRows(d)
  {
    var p := PartsOf(d);
    rows := RiskBlock(p.summary);
    rows := PushKeyValueBlock(rows, AnagraficaTitle, p.anagrafica);
    rows := PushKeyValueBlock(rows, PropertyDetailsTitle, p.property);
    rows := PushKeyValueBlock(rows, GeneralLiabilityTitle, p.generalLiability);
    rows := PushKeyValueBlock(rows, ProductLiabilityTitle, p.productLiability);
    rows := PushTableBlock(rows, SublimitsTitle, SublimitHeader, p.sublimits, SublimitRow);
    rows := PushTableBlock(rows, BuildingTitle, BuildingHeader, p.buildings, BuildingRow);
  }

  // ---------------------------------------------------------------------------
  // The document and its file name

  /** `e.join(',')` for every row. */
  function RowTexts(rows: seq<Row>): (r: seq<string>)
    ensures |r| == |rows|
  {
    if rows == [] then [] else [Join(rows[0], ",")] + RowTexts(rows[1..])
  }

  lemma {:induction false} RowTextAt(rows: seq<Row>, i: int)
    requires 0 <= i < |rows|
    ensures RowTexts(rows)[i] == Join(rows[i], ",")
  {
    if i > 0 {
      RowTextAt(rows[1..], i - 1);
    }
  }

  /** `rows.map(e => e.join(',')).join('\n')`. */
  function CsvContent(rows: seq<Row>): string {
    Join(RowTexts(rows), "\n")
  }

  /** Every row's cells, joined by commas, are part of the document. */
  lemma CsvContentHoldsRow(rows: seq<Row>, i: int)
    requires 0 <= i < |rows|
    ensures Contains(CsvContent(rows), Join(rows[i], ","))
  {
    RowTextAt(rows, i);
    JoinContainsPart(RowTexts(rows), "\n", i);
  }

  /** The document of one more row is the document so far, a line feed and that row. */
  lemma {:induction false} CsvContentSnoc(rows: seq<Row>, row: Row)
    requires rows != []
    ensures CsvContent(rows + [row]) == CsvContent(rows) + "\n" + Join(row, ",")
  {
    assert RowTexts(rows + [row]) == RowTexts(rows) + [Join(row, ",")] by {
      RowTextsAppend(rows, [row]);
    }
    JoinSnoc(RowTexts(rows), Join(row, ","), "\n");
  }

  lemma {:induction false} RowTextsAppend(a: seq<Row>, b: seq<Row>)
    ensures RowTexts(a + b) == RowTexts(a) + RowTexts(b)
  {
    if a == [] {
      assert a + b == b;
    } else {
      assert (a + b)[1..] == a[1..] + b;
      RowTextsAppend(a[1..], b);
      assert RowTexts(a + b) == [Join(a[0], ",")] + (RowTexts(a[1..]) + RowTexts(b));
    }
  }

  const CsvSuffix := "_Underwriting_Data.csv"
  const DefaultCsvName := "underwriting_data.csv"

  /** The download name: the entity name with white-space runs as `_`, or a fixed name. */
  function CsvFileName(entityName: Option<string>): string {
    if TruthyText(entityName) then UnderscoreWhitespace(entityName.value) + CsvSuffix else DefaultCsvName
  }

  /** A named file ends with the suffix, and the part taken from the name holds no white space. */
  lemma CsvFileNameShape(entityName: Option<string>, i: int)
    requires TruthyText(entityName)
    requires 0 <= i < |CsvFileName(entityName)| - |CsvSuffix|
    ensures StartsWith(CsvFileName(entityName), UnderscoreWhitespace(entityName.value))
    ensures CsvFileName(entityName)[|CsvFileName(entityName)| - |CsvSuffix|..] == CsvSuffix
    ensures !IsWhitespace(CsvFileName(entityName)[i])
  {
    var base := UnderscoreWhitespace(entityName.value);
    assert CsvFileName(entityName)[..|base|] == base;
    UnderscoreWhitespaceHasNone(entityName.value, i);
  }

  /** `handleExportCsv`: the text and the name of the file it offers for download. */
  method HandleExportCsv(d: ExtractedData) returns (content: string, filename: string)
    ensures content == CsvContent(CsvRows(d))
    ensures filename == CsvFileName(d.anagrafica.entityName)
  {
    content := BuildCsvContent(d);
    filename := CsvFileName(d.anagrafica.entityName);
  }

  /** `csvContent`: the rows built, then joined. */
  method BuildCsvContent(d: ExtractedData) returns (content: string)
    ensures content == CsvContent(CsvRows(d))
  {
    var rows := BuildCsvRows(d);
    content := CsvContent(rows);
  }
}
