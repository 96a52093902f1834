/**
 * The PDF report of `components/EditableDataForm.tsx` (`generatePdfReport`) without its page
 * layout: which numbered sections the report holds and in what order, the texts of the cover
 * page and of the page footers, what a key/value section and the two tables print, and the
 * name the file is saved under.
 */
module FormPdf {
  import opened Wrappers
  import opened Js
  import opened Types
  import opened Form
  import opened FormCsv
  import opened PdfExport

  // ---------------------------------------------------------------------------
  // The section plan

  /** The eight sections the report can hold, in the order it renders them. */
  datatype PdfSection =
    | RiskSummarySection
    | LatestNewsSection
    | GeneralInformationSection
    | PropertySection
    | GeneralLiabilitySection
    | ProductLiabilitySection
    | SublimitsSection
    | BuildingSection

  /** The position of a section in the rendering order. */
  function Rank(s: PdfSection): (r: nat)
    ensures r < 8
  {
    match s
    case RiskSummarySection => 0
    case LatestNewsSection => 1
    case GeneralInformationSection => 2
    case PropertySection => 3
    case GeneralLiabilitySection => 4
    case ProductLiabilitySection => 5
    case SublimitsSection => 6
    case BuildingSection => 7
  }

  /** The title `renderSectionTitle` receives for each section. */
  function SectionTitle(s: PdfSection): string {
    match s
    case RiskSummarySection => "Risk Summary"
    case LatestNewsSection => "Latest News"
    case GeneralInformationSection => GeneralInformationTitle
    case PropertySection => PropertyDetailsTitle
    case GeneralLiabilitySection => GeneralLiabilityTitle
    case ProductLiabilitySection => ProductLiabilityTitle
    case SublimitsSection => "Sublimits"
    case BuildingSection => "Building Details"
  }

  /**
   * The guard of each section: its switch in the export dialog, and for the news the presence
   * of news data, for the two tables a non-empty list. The four record sections are always
   * objects in `ExtractedData`, so their own truthiness test always passes.
   */
  predicate Included(config: PdfExportConfig, d: ExtractedData, news: Option<WebNewsData>, s: PdfSection) {
    match s
    case RiskSummarySection => config.includeRiskSummary
    case LatestNewsSection => config.includeLatestNews && news.Some?
    case GeneralInformationSection => config.includeAnagrafica
    case PropertySection => config.includePropertyDetails
    case GeneralLiabilitySection => config.includeGeneralLiabilityDetails
    case ProductLiabilitySection => config.includeProductLiabilityDetails
    case SublimitsSection => config.includeSublimits && |d.sublimits| > 0
    case BuildingSection => config.includeBuildingDetails && |d.dettaglioEdifici| > 0
  }

  /** The section at position `k` of the rendering order. */
  function SectionAt(k: nat): (s: PdfSection)
    requires k < 8
    ensures Rank(s) == k
  {
    if k == 0 then RiskSummarySection
    else if k == 1 then LatestNewsSection
    else if k == 2 then GeneralInformationSection
    else if k == 3 then PropertySection
    else if k == 4 then GeneralLiabilitySection
    else if k == 5 then ProductLiabilitySection
    else if k == 6 then SublimitsSection
    else BuildingSection
  }

  /** Positions and sections are in one-to-one correspondence. */
  lemma SectionAtRank(s: PdfSection)
    ensures SectionAt(Rank(s)) == s
  {
  }

  /** The sections the first `k` guarded blocks of the rendering flow emit. */
  function PlanUpTo(config: PdfExportConfig, d: ExtractedData, news: Option<WebNewsData>, k: nat): seq<PdfSection>
    requires k <= 8
  {
    if k == 0 then []
    else
      var s := SectionAt(k - 1);
      PlanUpTo(config, d, news, k - 1) + (if Included(config, d, news, s) then [s] else [])
  }

  /** The sections the report holds. */
  function SectionPlan(config: PdfExportConfig, d: ExtractedData, news: Option<WebNewsData>): seq<PdfSection> {
    PlanUpTo(config, d, news, 8)
  }

  /** The first `k` blocks emit exactly the sections before position `k` whose guard holds. */
  lemma {:induction false} PlanUpToMembers(config: PdfExportConfig, d: ExtractedData, news: Option<WebNewsData>, k: nat, s: PdfSection)
    requires k <= 8
    ensures s in PlanUpTo(config, d, news, k) <==> Rank(s) < k && Included(config, d, news, s)
  {
    if k > 0 {
      PlanUpToMembers(config, d, news, k - 1, s);
      SectionAtRank(s);
    }
  }

  /** A section is in the report exactly when its guard holds. */
  lemma SectionPlanMembers(config: PdfExportConfig, d: ExtractedData, news: Option<WebNewsData>, s: PdfSection)
    ensures s in SectionPlan(config, d, news) <==> Included(config, d, news, s)
  {
    PlanUpToMembers(config, d, news, 8, s);
  }

  /** Ranks strictly increase along `p`: the fixed order, no section twice. */
  predicate Ascending(p: seq<PdfSection>) {
    forall i, j :: 0 <= i < j < |p| ==> Rank(p[i]) < Rank(p[j])
  }

  /** Every section of `p` comes before position `k`. */
  predicate Below(p: seq<PdfSection>, k: nat) {
    forall i :: 0 <= i < |p| ==> Rank(p[i]) < k
  }

  /** The first `k` blocks emit their sections in rendering order. */
  lemma {:induction false} PlanUpToOrdered(config: PdfExportConfig, d: ExtractedData, news: Option<WebNewsData>, k: nat)
    requires k <= 8
    ensures Ascending(PlanUpTo(config, d, news, k)) && Below(PlanUpTo(config, d, news, k), k)
  {
    if k > 0 {
      PlanUpToOrdered(config, d, news, k - 1);
      var s := SectionAt(k - 1);
      AscendingSnoc(PlanUpTo(config, d, news, k - 1), if Included(config, d, news, s) then [s] else [], k - 1);
    }
  }

  /** Adding a block of rank `k` after sections ranked below `k` keeps the order. */
  lemma AscendingSnoc(p: seq<PdfSection>, piece: seq<PdfSection>, k: nat)
    requires Ascending(p) && Below(p, k)
    requires piece == [] || (|piece| == 1 && Rank(piece[0]) == k)
    ensures Ascending(p + piece) && Below(p + piece, k + 1)
  {
  }

  /** The sections appear in the fixed order, each at most once. */
  lemma SectionPlanOrdered(config: PdfExportConfig, d: ExtractedData, news: Option<WebNewsData>)
    ensures Ascending(SectionPlan(config, d, news))
  {
    PlanUpToOrdered(config, d, news, 8);
  }

  // ---------------------------------------------------------------------------
  // Numbered section titles

  /** The heading `renderSectionTitle` writes: the counter, a dot and a space, the title. */
  function NumberedTitle(n: int, title: string): string {
    IntToString(n) + ". " + title
  }

  /** The headings a plan is printed with, numbered consecutively from 1. */
  function Headings(plan: seq<PdfSection>): (r: seq<string>)
    ensures |r| == |plan|
  {
    seq(|plan|, i requires 0 <= i < |plan| => NumberedTitle(i + 1, SectionTitle(plan[i])))
  }

  /** One more section adds one heading, numbered one past the count so far. */
  lemma HeadingsSnoc(plan: seq<PdfSection>, s: PdfSection)
    ensures Headings(plan + [s]) == Headings(plan) + [NumberedTitle(|plan| + 1, SectionTitle(s))]
  {
    var a := Headings(plan + [s]);
    var b := Headings(plan) + [NumberedTitle(|plan| + 1, SectionTitle(s))];
    assert forall i :: 0 <= i < |a| ==> a[i] == b[i];
  }

  /** The `i`-th heading reads back as the number `i + 1`, then `. ` and the section's title. */
  lemma HeadingNumber(plan: seq<PdfSection>, i: int)
    requires 0 <= i < |plan|
    ensures exists k ::
              && 0 <= k <= |Headings(plan)[i]|
              && ParseInt(Headings(plan)[i][..k]) == Some(i + 1)
              && Headings(plan)[i][k..] == ". " + SectionTitle(plan[i])
  {
    var h := Headings(plan)[i];
    var digits := IntToString(i + 1);
    assert h == digits + (". " + SectionTitle(plan[i]));
    assert h[..|digits|] == digits;
    assert h[|digits|..] == ". " + SectionTitle(plan[i]);
    IntToStringRoundTrip(i + 1);
  }

  /** After the first `k` blocks: the headings of their sections, the counter one past them. */
  predicate Rendered(config: PdfExportConfig, d: ExtractedData, news: Option<WebNewsData>, k: nat,
                     headings: seq<string>, sectionCounter: int)
    requires k <= 8
  {
    headings == Headings(PlanUpTo(config, d, news, k)) && sectionCounter == |PlanUpTo(config, d, news, k)| + 1
  }

  /**
   * The `k`-th guarded block of the rendering flow: when its guard holds, `renderSectionTitle`
   * prints the numbered title and advances `sectionCounter`.
   */
  method RenderBlock(config: PdfExportConfig, d: ExtractedData, news: Option<WebNewsData>, k: nat,
                     headings: seq<string>, sectionCounter: int)
    returns (headings': seq<string>, sectionCounter': int)
    requires k < 8 && Rendered(config, d, news, k, headings, sectionCounter)
    ensures Rendered(config, d, news, k + 1, headings', sectionCounter')
  {
    var s := SectionAt(k);
    headings', sectionCounter' := headings, sectionCounter;
    if Included(config, d, news, s) {
      HeadingsSnoc(PlanUpTo(config, d, news, k), s);
      headings' := headings' + [NumberedTitle(sectionCounter', SectionTitle(s))];
      sectionCounter' := sectionCounter' + 1;
    }
  }

  /**
   * The section flow of `generatePdfReport`: the eight guarded blocks in order, starting
   * with `sectionCounter` at 1.
   */
  method RenderSectionTitles(config: PdfExportConfig, d: ExtractedData, news: Option<WebNewsData>)
    returns (headings: seq<string>)
    ensures headings == Headings(SectionPlan(config, d, news))
  {
    var sectionCounter := 1;
    headings := [];
    assert Rendered(config, d, news, 0, headings, sectionCounter);
    headings, sectionCounter := RenderBlock(config, d, news, 0, headings, sectionCounter);
    headings, sectionCounter := RenderBlock(config, d, news, 1, headings, sectionCounter);
    headings, sectionCounter := RenderBlock(config, d, news, 2, headings, sectionCounter);
    headings, sectionCounter := RenderBlock(config, d, news, 3, headings, sectionCounter);
    headings, sectionCounter := RenderBlock(config, d, news, 4, headings, sectionCounter);
    headings, sectionCounter := RenderBlock(config, d, news, 5, headings, sectionCounter);
    headings, sectionCounter := RenderBlock(config, d, news, 6, headings, sectionCounter);
    headings, sectionCounter := RenderBlock(config, d, news, 7, headings, sectionCounter);
  }

  // ---------------------------------------------------------------------------
  // Paragraphs, key/value sections and tables

  /** A sanitized text is worth printing unless it is `'N/A'` or blank. */
  predicate Printable(s: string) {
    s != NotAvailable && Trim(s) != ""
  }

  /** `renderParagraph`: the sanitized text, or nothing at all. */
  function Paragraph(v: Value): seq<string> {
    if Printable(Sanitize(v)) then [Sanitize(v)] else []
  }

  /**
   * A paragraph is printed for every number, and for a text other than `'N/A'` that holds
   * a character other than white space; never for an absent or non-printable value.
   */
  lemma ParagraphShown(v: Value)
    ensures Paragraph(v) != [] <==>
              || v.Number?
              || (v.Text? && v.s != NotAvailable && exists i :: 0 <= i < |v.s| && !IsWhitespace(v.s[i]))
  {
    SanitizeNotAvailable(v);
    match v
    case Number(n) =>
      IntToStringLeads(n);
      TrimEmptyIffBlank(IntToString(n));
      assert !IsWhitespace(IntToString(n)[0]);
    case Text(s) =>
      TrimEmptyIffBlank(s);
    case Null =>
    case Opaque(_) =>
  }

  /** One printed line of a key/value section: the label with a colon, and the value. */
  datatype Entry = Entry(caption: string, value: string)

  function FieldEntry(c: Cell): Entry {
    Entry(c.caption + ":", Sanitize(c.value))
  }

  /**
   * `renderKeyValueSection`: one line per configured field, an absent value printed as
   * `'N/A'`, then the notes line when the notes are printable.
   */
  function KeyValueEntries(cells: seq<Cell>, notes: Option<Cell>): (r: seq<Entry>)
    ensures |r| == |cells| + if notes.Some? && Printable(Sanitize(notes.value.value)) then 1 else 0
  {
    MapSeq(cells, FieldEntry) + if notes.Some? && Printable(Sanitize(notes.value.value)) then [FieldEntry(notes.value)] else []
  }

  /**
   * Every field is printed in configuration order, whatever its value; the notes, if any,
   * come last and are skipped exactly when they are absent, `'N/A'` or blank.
   */
  lemma KeyValueEntriesShape(cells: seq<Cell>, notes: Option<Cell>, i: int)
    requires 0 <= i < |cells|
    ensures KeyValueEntries(cells, notes)[i] == Entry(cells[i].caption + ":", Sanitize(cells[i].value))
    ensures notes.Some? ==>
              (|KeyValueEntries(cells, notes)| > |cells| <==> Printable(Sanitize(notes.value.value)))
    ensures notes.Some? && Printable(Sanitize(notes.value.value)) ==>
              KeyValueEntries(cells, notes)[|cells|] == FieldEntry(notes.value)
  {
    MapSeqAt(cells, FieldEntry, i);
  }

  const PropertyNotesCaption := "Property Notes"
  const GeneralLiabilityNotesCaption := "General Liability Notes"
  const ProductLiabilityNotesCaption := "Product Liability Notes"

  /** What the four record sections print. */
  function GeneralInformationEntries(d: ExtractedData): seq<Entry> {
    KeyValueEntries(AnagraficaCells(d.anagrafica), None)
  }

  function PropertyEntries(d: ExtractedData): seq<Entry> {
    KeyValueEntries(PropertyCells(d.propertyDetails),
                    Some(Cell(PropertyNotesCaption, OfText(d.propertyDetails.propertyNotes))))
  }

  function GeneralLiabilityEntries(d: ExtractedData): seq<Entry> {
    KeyValueEntries(GeneralLiabilityCells(d.generalLiabilityDetails),
                    Some(Cell(GeneralLiabilityNotesCaption, OfText(d.generalLiabilityDetails.generalLiabilityNotes))))
  }

  function ProductLiabilityEntries(d: ExtractedData): seq<Entry> {
    KeyValueEntries(ProductLiabilityCells(d.productLiabilityDetails),
                    Some(Cell(ProductLiabilityNotesCaption, OfText(d.productLiabilityDetails.productLiabilityNotes))))
  }

  function SanitizedValue(c: Cell): string {
    Sanitize(c.value)
  }

  /** A sublimits table row: every configured field, sanitized. */
  function SublimitTableRow(s: Sublimit): Row {
    MapSeq(SublimitCells(s), SanitizedValue)
  }

  /** A building table row: every configured field, then the building notes, all sanitized. */
  function BuildingTableRow(b: DettaglioEdifici): Row {
    MapSeq(BuildingCells(b), SanitizedValue) + [Sanitize(OfText(b.buildingNotes))]
  }

  /** The tables have the same column headings as the CSV export, one body row per element. */
  function SublimitTableBody(subs: seq<Sublimit>): seq<Row> {
    MapSeq(subs, SublimitTableRow)
  }

  function BuildingTableBody(bs: seq<DettaglioEdifici>): seq<Row> {
    MapSeq(bs, BuildingTableRow)
  }

  /** The `i`-th body row renders the `i`-th sublimit, with one cell under each heading. */
  lemma SublimitTableBodyAt(subs: seq<Sublimit>, i: int, j: int)
    requires 0 <= i < |subs| && 0 <= j < |SublimitFields|
    ensures |SublimitTableBody(subs)[i]| == |SublimitHeader|
    ensures SublimitTableBody(subs)[i][j] == Sanitize(SublimitGet(subs[i], SublimitFields[j].key))
  {
    MapSeqAt(subs, SublimitTableRow, i);
    MapSeqAt(SublimitCells(subs[i]), SanitizedValue, j);
    CellAt(SublimitFields, k => SublimitGet(subs[i], k), j);
  }

  /** The `i`-th body row renders the `i`-th building, its notes in the last column. */
  lemma BuildingTableBodyAt(bs: seq<DettaglioEdifici>, i: int, j: int)
    requires 0 <= i < |bs| && 0 <= j < |BuildingFields|
    ensures |BuildingTableBody(bs)[i]| == |BuildingHeader|
    ensures BuildingTableBody(bs)[i][j] == Sanitize(BuildingGet(bs[i], BuildingFields[j].key))
    ensures BuildingTableBody(bs)[i][|BuildingFields|] == Sanitize(OfText(bs[i].buildingNotes))
  {
    MapSeqAt(bs, BuildingTableRow, i);
    MapSeqAt(BuildingCells(bs[i]), SanitizedValue, j);
    CellAt(BuildingFields, k => BuildingGet(bs[i], k), j);
  }

  // ---------------------------------------------------------------------------
  // Cover page

  const CoverTitle := "Risk Assessment Report"

  function PreparedForLine(entityName: Option<string>): string {
    "Prepared for: " + Sanitize(OfText(entityName))
  }

  function PolicyNumberLine(policyNumber: string): string {
    "Policy Number: " + policyNumber
  }

  function UnderwriterLine(underwriterName: string): string {
    "Underwriter: " + underwriterName
  }

  /** The optional lines of a custom cover page: each of the two texts, when non-empty. */
  function CoverMeta(config: PdfExportConfig): seq<string> {
    if config.useCustomCoverPage then
      (if config.policyNumber != "" then [PolicyNumberLine(config.policyNumber)] else [])
      + (if config.underwriterName != "" then [UnderwriterLine(config.underwriterName)] else [])
    else []
  }

  /** The cover page's texts, top to bottom; `today` is the locale date the browser prints. */
  function CoverLines(config: PdfExportConfig, entityName: Option<string>, today: string): seq<string> {
    [CoverTitle, PreparedForLine(entityName)] + CoverMeta(config) + ["Generated on: " + today]
  }

  /**
   * The policy number and the underwriter appear on the cover exactly when the custom cover
   * page is chosen and the text is non-empty, policy number first.
   */
  lemma CoverMetaLines(config: PdfExportConfig)
    ensures (PolicyNumberLine(config.policyNumber) in CoverMeta(config))
            == (config.useCustomCoverPage && config.policyNumber != "")
    ensures (UnderwriterLine(config.underwriterName) in CoverMeta(config))
            == (config.useCustomCoverPage && config.underwriterName != "")
    ensures |CoverMeta(config)| <= 2
    ensures !config.useCustomCoverPage ==> CoverMeta(config) == []
    ensures config.useCustomCoverPage && config.policyNumber != "" && config.underwriterName != ""
            ==> CoverMeta(config) == [PolicyNumberLine(config.policyNumber), UnderwriterLine(config.underwriterName)]
  {
    assert PolicyNumberLine(config.policyNumber)[0] == 'P';
    assert UnderwriterLine(config.underwriterName)[0] == 'U';
  }

  // ---------------------------------------------------------------------------
  // Page footers

  const FooterFallback := "Risk Report"

  /** The name printed on every footer. */
  function FooterName(entityName: Option<string>): string {
    if Sanitize(OfText(entityName)) != NotAvailable then Sanitize(OfText(entityName)) else FooterFallback
  }

  /**
   * The footer shows the entity name unless it is absent or the literal `'N/A'`; an empty
   * name is shown as it is, empty.
   */
  lemma FooterNameCases(entityName: Option<string>)
    ensures FooterName(entityName)
            == if entityName.Some? && entityName.value != NotAvailable then entityName.value else FooterFallback
  {
    SanitizeNotAvailable(OfText(entityName));
  }

  function PageLabel(page: int, pageCount: int): string {
    "Page " + IntToString(page) + " of " + IntToString(pageCount)
  }

  /** Different pages of one report carry different labels. */
  lemma PageLabelsDistinct(i: int, j: int, pageCount: int)
    requires PageLabel(i, pageCount) == PageLabel(j, pageCount)
    ensures i == j
  {
    MiddleCancels("Page ", IntToString(i), IntToString(j), " of ", IntToString(pageCount));
    IntToStringRoundTrip(i);
    IntToStringRoundTrip(j);
  }

  /** Equal texts with the same frame around them have the same middle. */
  lemma MiddleCancels(pre: string, a: string, b: string, mid: string, post: string)
    requires pre + a + mid + post == pre + b + mid + post
    ensures a == b
  {
    var s, t := pre + a + mid + post, pre + b + mid + post;
    assert |a| == |b|;
    assert a == s[|pre|..|pre| + |a|];
    assert b == t[|pre|..|pre| + |b|];
  }

  datatype Footer = Footer(pageLabel: string, name: string)

  /** `addFooters`: every page, from the first to the last, gets its label and the name. */
  method AddFooters(pageCount: nat, entityName: Option<string>) returns (footers: seq<Footer>)
    ensures |footers| == pageCount
    ensures forall i :: 0 <= i < pageCount ==> footers[i] == Footer(PageLabel(i + 1, pageCount), FooterName(entityName))
  {
    var name := FooterName(entityName);
    footers := [];
    var i := 1;
    while i <= pageCount
      invariant 1 <= i <= pageCount + 1
      invariant |footers| == i - 1
      invariant forall p :: 0 <= p < i - 1 ==> footers[p] == Footer(PageLabel(p + 1, pageCount), name)
    {
      footers := footers + [Footer(PageLabel(i, pageCount), name)];
      i := i + 1;
    }
  }

  // ---------------------------------------------------------------------------
  // File name and the whole report

  const PdfSuffix := "_Risk_Report.pdf"

  /** The saved name: the sanitized entity name, white-space runs as `_`, and the suffix. */
  function PdfFileName(entityName: Option<string>): string {
    UnderscoreWhitespace(Sanitize(OfText(entityName))) + PdfSuffix
  }

  /**
   * The name ends with the suffix and the part before it holds no white space; without an
   * entity name the file is called `N/A_Risk_Report.pdf`, unlike the CSV's fixed name.
   */
  lemma PdfFileNameShape(entityName: Option<string>, i: int)
    requires 0 <= i < |PdfFileName(entityName)| - |PdfSuffix|
    ensures PdfFileName(entityName)[|PdfFileName(entityName)| - |PdfSuffix|..] == PdfSuffix
    ensures !IsWhitespace(PdfFileName(entityName)[i])
    ensures entityName.None? ==> PdfFileName(entityName) == NotAvailable + PdfSuffix
  {
    var stem := UnderscoreWhitespace(Sanitize(OfText(entityName)));
    assert PdfFileName(entityName)[i] == stem[i];
    UnderscoreWhitespaceHasNone(Sanitize(OfText(entityName)), i);
    if entityName.None? {
      assert forall k :: 0 <= k < |NotAvailable| ==> !IsWhitespace(NotAvailable[k]);
      UnderscoreWhitespaceKeeps(NotAvailable);
    }
  }

  /**
   * `generatePdfReport`, without layout: the cover page, the numbered section headings, the
   * footer of each of the `pageCount` pages the layout produced, and the file name.
   */
  method GeneratePdfReport(config: PdfExportConfig, d: ExtractedData, news: Option<WebNewsData>,
                           today: string, pageCount: nat)
    returns (cover: seq<string>, headings: seq<string>, footers: seq<Footer>, filename: string)
    ensures cover == CoverLines(config, d.anagrafica.entityName, today)
    ensures headings == Headings(SectionPlan(config, d, news))
    ensures |footers| == pageCount
    ensures forall i :: 0 <= i < pageCount ==>
              footers[i] == Footer(PageLabel(i + 1, pageCount), FooterName(d.anagrafica.entityName))
    ensures filename == PdfFileName(d.anagrafica.entityName)
  {
    cover := CoverLines(config, d.anagrafica.entityName, today);
    headings := RenderSectionTitles(config, d, news);
    footers := AddFooters(pageCount, d.anagrafica.entityName);
    filename := PdfFileName(d.anagrafica.entityName);
  }
}
