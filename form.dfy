/**
 * The record-editing core of `components/EditableDataForm.tsx`: the field configurations
 * that drive every view and export of a section, the single-field and array-element edit
 * handlers, the "missing value" test, `sanitize`, and the file-name rule shared by the
 * CSV and PDF exports. The missing-data e-mail, the CSV export and the PDF section plan are
 * in the modules FormEmail, FormCsv and FormPdf.
 */
module Form {
  import opened Wrappers
  import opened Js
  import opened Types

  // ---------------------------------------------------------------------------
  // Field configurations

  /** One entry of a field configuration: which field, under which label (`label` in the source). */
  datatype FieldConfig<K> = FieldConfig(key: K, caption: string)

  /** A field as a view or export sees it: its label and its current value. */
  datatype Cell = Cell(caption: string, value: Value)

  /** `fields.map(f => [f.label, data[f.key]])`. */
  function Cells<K>(fields: seq<FieldConfig<K>>, get: K -> Value): (r: seq<Cell>)
    ensures |r| == |fields|
  {
    seq(|fields|, i requires 0 <= i < |fields| => Cell(fields[i].caption, get(fields[i].key)))
  }

  /** The `i`-th cell carries the `i`-th configured label and that field's value. */
  lemma CellAt<K>(fields: seq<FieldConfig<K>>, get: K -> Value, i: int)
    requires 0 <= i < |fields|
    ensures Cells(fields, get)[i] == Cell(fields[i].caption, get(fields[i].key))
  {
  }

  /** A configured field's label. */
  function Caption<K>(f: FieldConfig<K>): string {
    f.caption
  }


  /** `anagraficaFields`: every field of `Anagrafica` except `dataStatus`. */
  const AnagraficaFields: seq<FieldConfig<AnagraficaKey>> := [
    FieldConfig(AnagraficaKey.EntityName, "Entity Name"),
    FieldConfig(AltNames, "Alternative Names"),
    FieldConfig(EntityType, "Type"),
    FieldConfig(Industry, "Industry"),
    FieldConfig(Country, "Country"),
    FieldConfig(City, "City"),
    FieldConfig(AnagraficaKey.Address, "Address"),
    FieldConfig(AnagraficaKey.TopLocation, "Top Location"),
    FieldConfig(Vat, "VAT Number"),
    FieldConfig(TaxCode, "Tax Code"),
    FieldConfig(Website, "Website"),
    FieldConfig(BrokerName, "Broker Name"),
    FieldConfig(BrokerCompany, "Broker Company"),
    FieldConfig(PeriodFrom, "Period From"),
    FieldConfig(PeriodTo, "Period To"),
    FieldConfig(RiskTypes, "Risk Types"),
    FieldConfig(TerritorialScope, "Territorial Scope"),
    FieldConfig(LossHistory5y, "Loss History (5y)"),
    FieldConfig(AnnualRevenueAmount, "Annual Revenue"),
    FieldConfig(AnnualRevenueYear, "Revenue Year"),
    FieldConfig(PayrollAmount, "Payroll Amount"),
    FieldConfig(PayrollYear, "Payroll Year"),
    FieldConfig(Headcount, "Headcount")]

  /** `propertyDetailsFields`. */
  const PropertyFields: seq<FieldConfig<PropertyKey>> := [
    FieldConfig(TivPdTotalEur, "TIV PD Total (EUR)"),
    FieldConfig(TivBiSumInsEur, "TIV BI Sum (EUR)"),
    FieldConfig(RatePerMille, "Rate per Mille"),
    FieldConfig(CatIncluded, "CAT Included"),
    FieldConfig(BuildingsEur, "Buildings (EUR)"),
    FieldConfig(MachineryEur, "Machinery (EUR)"),
    FieldConfig(StockEur, "Stock (EUR)"),
    FieldConfig(MarginContributionEur, "Margin Contribution (EUR)"),
    FieldConfig(FireProtectionSummary, "Fire Protection Summary"),
    FieldConfig(NatHazardNotes, "Natural Hazard Notes"),
    FieldConfig(BiPeriodMonths, "BI Period (Months)"),
    FieldConfig(BiNotes, "BI Notes")]

  /** `generalLiabilityFields`. */
  const GeneralLiabilityFields: seq<FieldConfig<GeneralLiabilityKey>> := [
    FieldConfig(RctLimitEur, "RCT Limit (EUR)"),
    FieldConfig(AggregateLimitEur, "Aggregate Limit (EUR)"),
    FieldConfig(FormRctRco, "Form RCT/RCO"),
    FieldConfig(UsaCanCovered, "USA/Canada Covered"),
    FieldConfig(DedRct, "Deductible RCT"),
    FieldConfig(Extensions, "Extensions"),
    FieldConfig(Exclusions, "Exclusions"),
    FieldConfig(Waivers, "Waivers"),
    FieldConfig(RetroUltrattivita, "Retroactivity")]

  /** `productLiabilityFields`. */
  const ProductLiabilityFields: seq<FieldConfig<ProductLiabilityKey>> := [
    FieldConfig(RcpLimitEur, "RCP Limit (EUR)"),
    FieldConfig(FormRcp, "Form RCP"),
    FieldConfig(RecallSublimitEur, "Recall Sublimit (EUR)"),
    FieldConfig(PollutionAccSublimitEur, "Pollution Sublimit (EUR)"),
    FieldConfig(InterruptionThirdPartySublimitEur, "3rd Party Interruption (EUR)"),
    FieldConfig(DedRcp, "Deductible RCP")]

  /** `sublimitFields`. */
  const SublimitFields: seq<FieldConfig<SublimitKey>> := [
    FieldConfig(RiskType, "Risk Type"),
    FieldConfig(Coverage, "Coverage"),
    FieldConfig(SublimitType, "Sublimit Type"),
    FieldConfig(AmountEurPercent, "Amount (EUR/%)")]

  /** `dettaglioEdificiFields`: every building field except `entityName` and `buildingNotes`. */
  const BuildingFields: seq<FieldConfig<BuildingKey>> := [
    FieldConfig(BuildingId, "Building ID"),
    FieldConfig(BuildingName, "Building Name"),
    FieldConfig(BuildingKey.Address, "Address"),
    FieldConfig(Occupancy, "Occupancy"),
    FieldConfig(FloorAreaSm, "Floor Area (sqm)"),
    FieldConfig(BuildingRcvEur, "Building RCV (EUR)"),
    FieldConfig(ContentsRcvEur, "Contents RCV (EUR)"),
    FieldConfig(TotalRcvEur, "Total RCV (EUR)"),
    FieldConfig(YearBuilt, "Year Built"),
    FieldConfig(ManualFireAlarmPercent, "% Manual Fire Alarm"),
    FieldConfig(AutomaticFireAlarmPercent, "% Automatic Fire Alarm"),
    FieldConfig(SprinklersPercent, "% Sprinklers"),
    FieldConfig(RoofMaterial, "Roof Material")]

  function AnagraficaCells(r: Anagrafica): seq<Cell> {
    Cells(AnagraficaFields, k => AnagraficaGet(r, k))
  }

  function PropertyCells(r: PropertyDetails): seq<Cell> {
    Cells(PropertyFields, k => PropertyGet(r, k))
  }

  function GeneralLiabilityCells(r: GeneralLiabilityDetails): seq<Cell> {
    Cells(GeneralLiabilityFields, k => GeneralLiabilityGet(r, k))
  }

  function ProductLiabilityCells(r: ProductLiabilityDetails): seq<Cell> {
    Cells(ProductLiabilityFields, k => ProductLiabilityGet(r, k))
  }

  function SublimitCells(r: Sublimit): seq<Cell> {
    Cells(SublimitFields, k => SublimitGet(r, k))
  }

  function BuildingCells(r: DettaglioEdifici): seq<Cell> {
    Cells(BuildingFields, k => BuildingGet(r, k))
  }

  /** The section headings the form, the e-mail draft and the exports share. */
  const GeneralInformationTitle := "General Information"
  const PropertyDetailsTitle := "Property Details"
  const GeneralLiabilityTitle := "General Liability Details"
  const ProductLiabilityTitle := "Product Liability Details"

  // ---------------------------------------------------------------------------
  // handleChange and handleArrayChange

  /** `data[section][field]` for one of the five record sections. */
  datatype FieldRef =
    | RiskSummaryText
    | AnagraficaField(a: AnagraficaKey)
    | PropertyField(p: PropertyKey)
    | GeneralLiabilityField(g: GeneralLiabilityKey)
    | ProductLiabilityField(l: ProductLiabilityKey)

  function FieldKind(f: FieldRef): Kind {
    match f
    case RiskSummaryText => TextField
    case AnagraficaField(k) => AnagraficaKind(k)
    case PropertyField(k) => PropertyKind(k)
    case GeneralLiabilityField(k) => GeneralLiabilityKind(k)
    case ProductLiabilityField(k) => ProductLiabilityKind(k)
  }

  function FieldValue(d: ExtractedData, f: FieldRef): Value {
    match f
    case RiskSummaryText => OfText(d.riskSummary.riskSummary)
    case AnagraficaField(k) => AnagraficaGet(d.anagrafica, k)
    case PropertyField(k) => PropertyGet(d.propertyDetails, k)
    case GeneralLiabilityField(k) => GeneralLiabilityGet(d.generalLiabilityDetails, k)
    case ProductLiabilityField(k) => ProductLiabilityGet(d.productLiabilityDetails, k)
  }

  /**
   * `handleChange(section, field, value)`: the record handed to `onUpdate`. Every section
   * other than the edited one is the old one; `HandleChangeAt` says what happens inside it.
   * The inputs only ever hand over a string for a text field and a number or `null` for a
   * number field, which the precondition records.
   */
  function HandleChange(d: ExtractedData, f: FieldRef, v: Value): (r: ExtractedData)
    requires Fits(FieldKind(f), v)
    ensures r.sublimits == d.sublimits && r.dettaglioEdifici == d.dettaglioEdifici
    ensures !f.RiskSummaryText? ==> r.riskSummary == d.riskSummary
    ensures !f.AnagraficaField? ==> r.anagrafica == d.anagrafica
    ensures !f.PropertyField? ==> r.propertyDetails == d.propertyDetails
    ensures !f.GeneralLiabilityField? ==> r.generalLiabilityDetails == d.generalLiabilityDetails
    ensures !f.ProductLiabilityField? ==> r.productLiabilityDetails == d.productLiabilityDetails
  {
    match f
    case RiskSummaryText => d.(riskSummary := RiskSummary(AsText(v)))
    case AnagraficaField(k) => d.(anagrafica := AnagraficaWith(d.anagrafica, k, v))
    case PropertyField(k) => d.(propertyDetails := PropertyWith(d.propertyDetails, k, v))
    case GeneralLiabilityField(k) =>
      d.(generalLiabilityDetails := GeneralLiabilityWith(d.generalLiabilityDetails, k, v))
    case ProductLiabilityField(k) =>
      d.(productLiabilityDetails := ProductLiabilityWith(d.productLiabilityDetails, k, v))
  }

  /** After `handleChange`, the edited field holds the new value and every other field its old one. */
  lemma HandleChangeAt(d: ExtractedData, f: FieldRef, v: Value, g: FieldRef)
    requires Fits(FieldKind(f), v)
    ensures FieldValue(HandleChange(d, f, v), g) == if g == f then v else FieldValue(d, g)
  {
    var r := HandleChange(d, f, v);
    match g
    case RiskSummaryText =>
    case AnagraficaField(k) =>
      if f.AnagraficaField? { assert AnagraficaGet(r.anagrafica, k) == if k == f.a then v else AnagraficaGet(d.anagrafica, k); }
    case PropertyField(k) =>
      if f.PropertyField? { assert PropertyGet(r.propertyDetails, k) == if k == f.p then v else PropertyGet(d.propertyDetails, k); }
    case GeneralLiabilityField(k) =>
      if f.GeneralLiabilityField? {
        assert GeneralLiabilityGet(r.generalLiabilityDetails, k)
          == if k == f.g then v else GeneralLiabilityGet(d.generalLiabilityDetails, k);
      }
    case ProductLiabilityField(k) =>
      if f.ProductLiabilityField? {
        assert ProductLiabilityGet(r.productLiabilityDetails, k)
          == if k == f.l then v else ProductLiabilityGet(d.productLiabilityDetails, k);
      }
  }

  /** `newArray[index][field]` for the two list sections. */
  datatype RowField = SublimitField(s: SublimitKey) | BuildingField(b: BuildingKey)

  /** The index names an existing element of the edited list, and the value fits the field. */
  predicate ArrayChangeAllowed(d: ExtractedData, index: int, c: RowField, v: Value) {
    match c
    case SublimitField(k) => 0 <= index < |d.sublimits| && Fits(SublimitKind(k), v)
    case BuildingField(k) => 0 <= index < |d.dettaglioEdifici| && Fits(BuildingKind(k), v)
  }

  /**
   * `handleArrayChange(section, index, field, value)`: only element `index` of the edited
   * list changes, and within it only `field`; the list keeps its length and every other
   * part of the record is kept.
   */
  function HandleArrayChange(d: ExtractedData, index: int, c: RowField, v: Value): (r: ExtractedData)
    requires ArrayChangeAllowed(d, index, c, v)
    ensures r.riskSummary == d.riskSummary && r.anagrafica == d.anagrafica
    ensures r.propertyDetails == d.propertyDetails
    ensures r.generalLiabilityDetails == d.generalLiabilityDetails
    ensures r.productLiabilityDetails == d.productLiabilityDetails
    ensures c.SublimitField? ==>
      && r.dettaglioEdifici == d.dettaglioEdifici
      && |r.sublimits| == |d.sublimits|
      && (forall i :: 0 <= i < |d.sublimits| && i != index ==> r.sublimits[i] == d.sublimits[i])
      && (forall j :: SublimitGet(r.sublimits[index], j)
            == if j == c.s then v else SublimitGet(d.sublimits[index], j))
    ensures c.BuildingField? ==>
      && r.sublimits == d.sublimits
      && |r.dettaglioEdifici| == |d.dettaglioEdifici|
      && (forall i :: 0 <= i < |d.dettaglioEdifici| && i != index ==> r.dettaglioEdifici[i] == d.dettaglioEdifici[i])
      && (forall j :: BuildingGet(r.dettaglioEdifici[index], j)
            == if j == c.b then v else BuildingGet(d.dettaglioEdifici[index], j))
  {
    match c
    case SublimitField(k) =>
      d.(sublimits := d.sublimits[index := SublimitWith(d.sublimits[index], k, v)])
    case BuildingField(k) =>
      d.(dettaglioEdifici := d.dettaglioEdifici[index := BuildingWith(d.dettaglioEdifici[index], k, v)])
  }

  // ---------------------------------------------------------------------------
  // isValueMissing

  /** `isValueMissing`: `null`, `undefined`, `''` and `0` count as missing, nothing else. */
  predicate IsValueMissing(v: Value) {
    v == Null || v == Text("") || v == Number(0)
  }

  /** For a text field, missing means falsy. */
  lemma MissingTextIsFalsy(o: Option<string>)
    ensures IsValueMissing(OfText(o)) <==> !TruthyText(o)
  {
  }

  /** For a number field, missing means absent or zero. */
  lemma MissingNumberIsAbsentOrZero(o: Option<int>)
    ensures IsValueMissing(OfNumber(o)) <==> o.None? || o.value == 0
  {
  }

  // ---------------------------------------------------------------------------
  // String(v) and sanitize

  /** `String(v)`. */
  function ValueString(v: Value): string {
    match v
    case Null => "null"
    case Text(s) => s
    case Number(n) => IntToString(n)
    case Opaque(shown) => shown
  }

  const NotAvailable := "N/A"

  /** `sanitize`: strings and numbers as `String(v)`, anything else as `'N/A'`. */
  function Sanitize(v: Value): (r: string)
    ensures v.Text? || v.Number? ==> r == ValueString(v)
    ensures v.Null? || v.Opaque? ==> r == NotAvailable
  {
    match v
    case Null => NotAvailable
    case Text(s) => s
    case Number(n) => IntToString(n)
    case Opaque(_) => NotAvailable
  }

  /**
   * The PDF treats `'N/A'` as "nothing to show": that text results exactly from an absent
   * or non-printable value, and from the literal string `'N/A'`; never from a number.
   */
  lemma SanitizeNotAvailable(v: Value)
    ensures Sanitize(v) == NotAvailable <==> v.Null? || v.Opaque? || v == Text(NotAvailable)
  {
    if v.Number? {
      IntToStringLeads(v.n);
      assert IntToString(v.n)[0] != NotAvailable[0];
    }
  }

  // ---------------------------------------------------------------------------
  // replace(/\s+/g, '_')

  /** `s.replace(/\s+/g, '_')`: every maximal run of white space becomes one `_`. */
  function UnderscoreWhitespace(s: string): (r: string)
    decreases |s|
  {
    if s == [] then []
    else if IsWhitespace(s[0]) then "_" + UnderscoreWhitespace(TrimStart(s[1..]))
    else [s[0]] + UnderscoreWhitespace(s[1..])
  }

  /** The replaced text has no white space left. */
  lemma {:induction false} UnderscoreWhitespaceHasNone(s: string, i: int)
    requires 0 <= i < |UnderscoreWhitespace(s)|
    ensures !IsWhitespace(UnderscoreWhitespace(s)[i])
    decreases |s|
  {
    if IsWhitespace(s[0]) {
      if i > 0 {
        UnderscoreWhitespaceHasNone(TrimStart(s[1..]), i - 1);
      }
    } else if i > 0 {
      UnderscoreWhitespaceHasNone(s[1..], i - 1);
    }
  }

  /** A text without white space is left as it is. */
  lemma {:induction false} UnderscoreWhitespaceKeeps(s: string)
    requires forall i :: 0 <= i < |s| ==> !IsWhitespace(s[i])
    ensures UnderscoreWhitespace(s) == s
  {
    if s != [] {
      UnderscoreWhitespaceKeeps(s[1..]);
      assert [s[0]] + s[1..] == s;
    }
  }
}
