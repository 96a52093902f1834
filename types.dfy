/**
 * The records of `types.ts`: the seven parts of an extraction, the web-news result and the
 * chat message. A field that the source types as `string | null` or `number | null` is an
 * `Option<string>` or `Option<int>`; `None` stands for both `null` and `undefined`, which
 * every operation of the model treats alike. Numbers are modelled as integers.
 *
 * The generic edit, export and missing-data helpers address fields by key, as the source
 * does with `keyof T`; `Value` is what such a keyed read yields.
 */
module Types {
  import opened Wrappers

  /** A JavaScript value as read from or written to a record field. */
  datatype Value =
    | Null                 // `null` or `undefined`
    | Text(s: string)      // a string, possibly ''
    | Number(n: int)       // a number
    | Opaque(shown: string) // any other value (a boolean, an object), with its `String(v)`

  /** The declared type of a field, apart from `null`. */
  datatype Kind = TextField | NumberField

  /** `v` is a legal content for a field of kind `kind`: `null`, or a value of that type. */
  predicate Fits(kind: Kind, v: Value) {
    v.Null? || (kind == TextField && v.Text?) || (kind == NumberField && v.Number?)
  }

  function OfText(o: Option<string>): (v: Value)
    ensures Fits(TextField, v)
    ensures o.None? <==> v.Null?
    ensures o.Some? ==> v == Text(o.value)
  {
    if o.Some? then Text(o.value) else Null
  }

  function OfNumber(o: Option<int>): (v: Value)
    ensures Fits(NumberField, v)
    ensures o.None? <==> v.Null?
    ensures o.Some? ==> v == Number(o.value)
  {
    if o.Some? then Number(o.value) else Null
  }

  function AsText(v: Value): (o: Option<string>)
    requires Fits(TextField, v)
    ensures OfText(o) == v
  {
    if v.Text? then Some(v.s) else None
  }

  function AsNumber(v: Value): (o: Option<int>)
    requires Fits(NumberField, v)
    ensures OfNumber(o) == v
  {
    if v.Number? then Some(v.n) else None
  }

  /** The `RiskSummary` interface. */
  datatype RiskSummary = RiskSummary(riskSummary: Option<string>)

  /** The `Anagrafica` interface: every field is nullable. */
  datatype Anagrafica = Anagrafica(
    entityName: Option<string>,
    altNames: Option<string>,
    entityType: Option<string>,
    industry: Option<string>,
    country: Option<string>,
    city: Option<string>,
    address: Option<string>,
    topLocation: Option<string>,
    vat: Option<string>,
    taxCode: Option<string>,
    website: Option<string>,
    brokerName: Option<string>,
    brokerCompany: Option<string>,
    periodFrom: Option<string>,
    periodTo: Option<string>,
    riskTypes: Option<string>,
    territorialScope: Option<string>,
    lossHistory5y: Option<string>,
    annualRevenueAmount: Option<int>,
    annualRevenueYear: Option<int>,
    payrollAmount: Option<int>,
    payrollYear: Option<int>,
    headcount: Option<int>,
    dataStatus: Option<string>)

  /** `keyof Anagrafica`. */
  datatype AnagraficaKey =
    | EntityName
    | AltNames
    | EntityType
    | Industry
    | Country
    | City
    | Address
    | TopLocation
    | Vat
    | TaxCode
    | Website
    | BrokerName
    | BrokerCompany
    | PeriodFrom
    | PeriodTo
    | RiskTypes
    | TerritorialScope
    | LossHistory5y
    | AnnualRevenueAmount
    | AnnualRevenueYear
    | PayrollAmount
    | PayrollYear
    | Headcount
    | DataStatus

  /** Whether a `Anagrafica` field holds a string or a number. */
  function AnagraficaKind(k: AnagraficaKey): Kind {
    match k
    case AnnualRevenueAmount | AnnualRevenueYear | PayrollAmount | PayrollYear | Headcount => NumberField
    case EntityName | AltNames | EntityType | Industry | Country | City | Address | TopLocation | Vat | TaxCode | Website | BrokerName | BrokerCompany | PeriodFrom | PeriodTo | RiskTypes | TerritorialScope | LossHistory5y | DataStatus => TextField
  }

  /** `r[k]` for a `Anagrafica` record. */
  function AnagraficaGet(r: Anagrafica, k: AnagraficaKey): (v: Value)
    ensures Fits(AnagraficaKind(k), v)
  {
    match k
    case EntityName => OfText(r.entityName)
    case AltNames => OfText(r.altNames)
    case EntityType => OfText(r.entityType)
    case Industry => OfText(r.industry)
    case Country => OfText(r.country)
    case City => OfText(r.city)
    case Address => OfText(r.address)
    case TopLocation => OfText(r.topLocation)
    case Vat => OfText(r.vat)
    case TaxCode => OfText(r.taxCode)
    case Website => OfText(r.website)
    case BrokerName => OfText(r.brokerName)
    case BrokerCompany => OfText(r.brokerCompany)
    case PeriodFrom => OfText(r.periodFrom)
    case PeriodTo => OfText(r.periodTo)
    case RiskTypes => OfText(r.riskTypes)
    case TerritorialScope => OfText(r.territorialScope)
    case LossHistory5y => OfText(r.lossHistory5y)
    case AnnualRevenueAmount => OfNumber(r.annualRevenueAmount)
    case AnnualRevenueYear => OfNumber(r.annualRevenueYear)
    case PayrollAmount => OfNumber(r.payrollAmount)
    case PayrollYear => OfNumber(r.payrollYear)
    case Headcount => OfNumber(r.headcount)
    case DataStatus => OfText(r.dataStatus)
  }

  /** `{...r, [k]: v}` for a `Anagrafica` record: field `k` becomes `v`, every other field is kept. */
  function AnagraficaWith(r: Anagrafica, k: AnagraficaKey, v: Value): (w: Anagrafica)
    requires Fits(AnagraficaKind(k), v)
    ensures forall j :: AnagraficaGet(w, j) == if j == k then v else AnagraficaGet(r, j)
  {
    match k
    case EntityName => r.(entityName := AsText(v))
    case AltNames => r.(altNames := AsText(v))
    case EntityType => r.(entityType := AsText(v))
    case Industry => r.(industry := AsText(v))
    case Country => r.(country := AsText(v))
    case City => r.(city := AsText(v))
    case Address => r.(address := AsText(v))
    case TopLocation => r.(topLocation := AsText(v))
    case Vat => r.(vat := AsText(v))
    case TaxCode => r.(taxCode := AsText(v))
    case Website => r.(website := AsText(v))
    case BrokerName => r.(brokerName := AsText(v))
    case BrokerCompany => r.(brokerCompany := AsText(v))
    case PeriodFrom => r.(periodFrom := AsText(v))
    case PeriodTo => r.(periodTo := AsText(v))
    case RiskTypes => r.(riskTypes := AsText(v))
    case TerritorialScope => r.(territorialScope := AsText(v))
    case LossHistory5y => r.(lossHistory5y := AsText(v))
    case AnnualRevenueAmount => r.(annualRevenueAmount := AsNumber(v))
    case AnnualRevenueYear => r.(annualRevenueYear := AsNumber(v))
    case PayrollAmount => r.(payrollAmount := AsNumber(v))
    case PayrollYear => r.(payrollYear := AsNumber(v))
    case Headcount => r.(headcount := AsNumber(v))
    case DataStatus => r.(dataStatus := AsText(v))
  }

  /** The `PropertyDetails` interface: every field is nullable. */
  datatype PropertyDetails = PropertyDetails(
    entityName: Option<string>,
    topLocation: Option<string>,
    tivPdTotalEur: Option<int>,
    tivBiSumInsEur: Option<int>,
    ratePerMille: Option<int>,
    catIncluded: Option<string>,
    buildingsEur: Option<int>,
    machineryEur: Option<int>,
    stockEur: Option<int>,
    marginContributionEur: Option<int>,
    fireProtectionSummary: Option<string>,
    natHazardNotes: Option<string>,
    biPeriodMonths: Option<int>,
    biNotes: Option<string>,
    propertyNotes: Option<string>,
    dataStatus: Option<string>)

  /** `keyof PropertyDetails`. */
  datatype PropertyKey =
    | EntityName
    | TopLocation
    | TivPdTotalEur
    | TivBiSumInsEur
    | RatePerMille
    | CatIncluded
    | BuildingsEur
    | MachineryEur
    | StockEur
    | MarginContributionEur
    | FireProtectionSummary
    | NatHazardNotes
    | BiPeriodMonths
    | BiNotes
    | PropertyNotes
    | DataStatus

  /** Whether a `PropertyDetails` field holds a string or a number. */
  function PropertyKind(k: PropertyKey): Kind {
    match k
    case TivPdTotalEur | TivBiSumInsEur | RatePerMille | BuildingsEur | MachineryEur | StockEur | MarginContributionEur | BiPeriodMonths => NumberField
    case EntityName | TopLocation | CatIncluded | FireProtectionSummary | NatHazardNotes | BiNotes | PropertyNotes | DataStatus => TextField
  }

  /** `r[k]` for a `PropertyDetails` record. */
  function PropertyGet(r: PropertyDetails, k: PropertyKey): (v: Value)
    ensures Fits(PropertyKind(k), v)
  {
    match k
    case EntityName => OfText(r.entityName)
    case TopLocation => OfText(r.topLocation)
    case TivPdTotalEur => OfNumber(r.tivPdTotalEur)
    case TivBiSumInsEur => OfNumber(r.tivBiSumInsEur)
    case RatePerMille => OfNumber(r.ratePerMille)
    case CatIncluded => OfText(r.catIncluded)
    case BuildingsEur => OfNumber(r.buildingsEur)
    case MachineryEur => OfNumber(r.machineryEur)
    case StockEur => OfNumber(r.stockEur)
    case MarginContributionEur => OfNumber(r.marginContributionEur)
    case FireProtectionSummary => OfText(r.fireProtectionSummary)
    case NatHazardNotes => OfText(r.natHazardNotes)
    case BiPeriodMonths => OfNumber(r.biPeriodMonths)
    case BiNotes => OfText(r.biNotes)
    case PropertyNotes => OfText(r.propertyNotes)
    case DataStatus => OfText(r.dataStatus)
  }

  /** `{...r, [k]: v}` for a `PropertyDetails` record: field `k` becomes `v`, every other field is kept. */
  function PropertyWith(r: PropertyDetails, k: PropertyKey, v: Value): (w: PropertyDetails)
    requires Fits(PropertyKind(k), v)
    ensures forall j :: PropertyGet(w, j) == if j == k then v else PropertyGet(r, j)
  {
    match k
    case EntityName => r.(entityName := AsText(v))
    case TopLocation => r.(topLocation := AsText(v))
    case TivPdTotalEur => r.(tivPdTotalEur := AsNumber(v))
    case TivBiSumInsEur => r.(tivBiSumInsEur := AsNumber(v))
    case RatePerMille => r.(ratePerMille := AsNumber(v))
    case CatIncluded => r.(catIncluded := AsText(v))
    case BuildingsEur => r.(buildingsEur := AsNumber(v))
    case MachineryEur => r.(machineryEur := AsNumber(v))
    case StockEur => r.(stockEur := AsNumber(v))
    case MarginContributionEur => r.(marginContributionEur := AsNumber(v))
    case FireProtectionSummary => r.(fireProtectionSummary := AsText(v))
    case NatHazardNotes => r.(natHazardNotes := AsText(v))
    case BiPeriodMonths => r.(biPeriodMonths := AsNumber(v))
    case BiNotes => r.(biNotes := AsText(v))
    case PropertyNotes => r.(propertyNotes := AsText(v))
    case DataStatus => r.(dataStatus := AsText(v))
  }

  /** The `GeneralLiabilityDetails` interface: every field is nullable. */
  datatype GeneralLiabilityDetails = GeneralLiabilityDetails(
    rctLimitEur: Option<int>,
    aggregateLimitEur: Option<int>,
    formRctRco: Option<string>,
    usaCanCovered: Option<string>,
    dedRct: Option<int>,
    extensions: Option<string>,
    exclusions: Option<string>,
    waivers: Option<string>,
    retroUltrattivita: Option<string>,
    generalLiabilityNotes: Option<string>,
    dataStatus: Option<string>)

  /** `keyof GeneralLiabilityDetails`. */
  datatype GeneralLiabilityKey =
    | RctLimitEur
    | AggregateLimitEur
    | FormRctRco
    | UsaCanCovered
    | DedRct
    | Extensions
    | Exclusions
    | Waivers
    | RetroUltrattivita
    | GeneralLiabilityNotes
    | DataStatus

  /** Whether a `GeneralLiabilityDetails` field holds a string or a number. */
  function GeneralLiabilityKind(k: GeneralLiabilityKey): Kind {
    match k
    case RctLimitEur | AggregateLimitEur | DedRct => NumberField
    case FormRctRco | UsaCanCovered | Extensions | Exclusions | Waivers | RetroUltrattivita | GeneralLiabilityNotes | DataStatus => TextField
  }

  /** `r[k]` for a `GeneralLiabilityDetails` record. */
  function GeneralLiabilityGet(r: GeneralLiabilityDetails, k: GeneralLiabilityKey): (v: Value)
    ensures Fits(GeneralLiabilityKind(k), v)
  {
    match k
    case RctLimitEur => OfNumber(r.rctLimitEur)
    case AggregateLimitEur => OfNumber(r.aggregateLimitEur)
    case FormRctRco => OfText(r.formRctRco)
    case UsaCanCovered => OfText(r.usaCanCovered)
    case DedRct => OfNumber(r.dedRct)
    case Extensions => OfText(r.extensions)
    case Exclusions => OfText(r.exclusions)
    case Waivers => OfText(r.waivers)
    case RetroUltrattivita => OfText(r.retroUltrattivita)
    case GeneralLiabilityNotes => OfText(r.generalLiabilityNotes)
    case DataStatus => OfText(r.dataStatus)
  }

  /** `{...r, [k]: v}` for a `GeneralLiabilityDetails` record: field `k` becomes `v`, every other field is kept. */
  function GeneralLiabilityWith(r: GeneralLiabilityDetails, k: GeneralLiabilityKey, v: Value): (w: GeneralLiabilityDetails)
    requires Fits(GeneralLiabilityKind(k), v)
    ensures forall j :: GeneralLiabilityGet(w, j) == if j == k then v else GeneralLiabilityGet(r, j)
  {
    match k
    case RctLimitEur => r.(rctLimitEur := AsNumber(v))
    case AggregateLimitEur => r.(aggregateLimitEur := AsNumber(v))
    case FormRctRco => r.(formRctRco := AsText(v))
    case UsaCanCovered => r.(usaCanCovered := AsText(v))
    case DedRct => r.(dedRct := AsNumber(v))
    case Extensions => r.(extensions := AsText(v))
    case Exclusions => r.(exclusions := AsText(v))
    case Waivers => r.(waivers := AsText(v))
    case RetroUltrattivita => r.(retroUltrattivita := AsText(v))
    case GeneralLiabilityNotes => r.(generalLiabilityNotes := AsText(v))
    case DataStatus => r.(dataStatus := AsText(v))
  }

  /** The `ProductLiabilityDetails` interface: every field is nullable. */
  datatype ProductLiabilityDetails = ProductLiabilityDetails(
    rcpLimitEur: Option<int>,
    formRcp: Option<string>,
    recallSublimitEur: Option<int>,
    pollutionAccSublimitEur: Option<int>,
    interruptionThirdPartySublimitEur: Option<int>,
    dedRcp: Option<int>,
    productLiabilityNotes: Option<string>,
    dataStatus: Option<string>)

  /** `keyof ProductLiabilityDetails`. */
  datatype ProductLiabilityKey =
    | RcpLimitEur
    | FormRcp
    | RecallSublimitEur
    | PollutionAccSublimitEur
    | InterruptionThirdPartySublimitEur
    | DedRcp
    | ProductLiabilityNotes
    | DataStatus

  /** Whether a `ProductLiabilityDetails` field holds a string or a number. */
  function ProductLiabilityKind(k: ProductLiabilityKey): Kind {
    match k
    case RcpLimitEur | RecallSublimitEur | PollutionAccSublimitEur | InterruptionThirdPartySublimitEur | DedRcp => NumberField
    case FormRcp | ProductLiabilityNotes | DataStatus => TextField
  }

  /** `r[k]` for a `ProductLiabilityDetails` record. */
  function ProductLiabilityGet(r: ProductLiabilityDetails, k: ProductLiabilityKey): (v: Value)
    ensures Fits(ProductLiabilityKind(k), v)
  {
    match k
    case RcpLimitEur => OfNumber(r.rcpLimitEur)
    case FormRcp => OfText(r.formRcp)
    case RecallSublimitEur => OfNumber(r.recallSublimitEur)
    case PollutionAccSublimitEur => OfNumber(r.pollutionAccSublimitEur)
    case InterruptionThirdPartySublimitEur => OfNumber(r.interruptionThirdPartySublimitEur)
    case DedRcp => OfNumber(r.dedRcp)
    case ProductLiabilityNotes => OfText(r.productLiabilityNotes)
    case DataStatus => OfText(r.dataStatus)
  }

  /** `{...r, [k]: v}` for a `ProductLiabilityDetails` record: field `k` becomes `v`, every other field is kept. */
  function ProductLiabilityWith(r: ProductLiabilityDetails, k: ProductLiabilityKey, v: Value): (w: ProductLiabilityDetails)
    requires Fits(ProductLiabilityKind(k), v)
    ensures forall j :: ProductLiabilityGet(w, j) == if j == k then v else ProductLiabilityGet(r, j)
  {
    match k
    case RcpLimitEur => r.(rcpLimitEur := AsNumber(v))
    case FormRcp => r.(formRcp := AsText(v))
    case RecallSublimitEur => r.(recallSublimitEur := AsNumber(v))
    case PollutionAccSublimitEur => r.(pollutionAccSublimitEur := AsNumber(v))
    case InterruptionThirdPartySublimitEur => r.(interruptionThirdPartySublimitEur := AsNumber(v))
    case DedRcp => r.(dedRcp := AsNumber(v))
    case ProductLiabilityNotes => r.(productLiabilityNotes := AsText(v))
    case DataStatus => r.(dataStatus := AsText(v))
  }

  /** The `Sublimit` interface: every field is nullable. */
  datatype Sublimit = Sublimit(
    riskType: Option<string>,
    coverage: Option<string>,
    sublimitType: Option<string>,
    amountEurPercent: Option<string>)

  /** `keyof Sublimit`. */
  datatype SublimitKey =
    | RiskType
    | Coverage
    | SublimitType
    | AmountEurPercent

  /** Whether a `Sublimit` field holds a string or a number. */
  function SublimitKind(k: SublimitKey): Kind {
    match k
    case RiskType | Coverage | SublimitType | AmountEurPercent => TextField
  }

  /** `r[k]` for a `Sublimit` record. */
  function SublimitGet(r: Sublimit, k: SublimitKey): (v: Value)
    ensures Fits(SublimitKind(k), v)
  {
    match k
    case RiskType => OfText(r.riskType)
    case Coverage => OfText(r.coverage)
    case SublimitType => OfText(r.sublimitType)
    case AmountEurPercent => OfText(r.amountEurPercent)
  }

  /** `{...r, [k]: v}` for a `Sublimit` record: field `k` becomes `v`, every other field is kept. */
  function SublimitWith(r: Sublimit, k: SublimitKey, v: Value): (w: Sublimit)
    requires Fits(SublimitKind(k), v)
    ensures forall j :: SublimitGet(w, j) == if j == k then v else SublimitGet(r, j)
  {
    match k
    case RiskType => r.(riskType := AsText(v))
    case Coverage => r.(coverage := AsText(v))
    case SublimitType => r.(sublimitType := AsText(v))
    case AmountEurPercent => r.(amountEurPercent := AsText(v))
  }

  /** The `DettaglioEdifici` interface: every field is nullable. */
  datatype DettaglioEdifici = DettaglioEdifici(
    entityName: Option<string>,
    buildingId: Option<string>,
    buildingName: Option<string>,
    address: Option<string>,
    occupancy: Option<string>,
    floorAreaSm: Option<int>,
    buildingRcvEur: Option<int>,
    contentsRcvEur: Option<int>,
    totalRcvEur: Option<int>,
    yearBuilt: Option<int>,
    manualFireAlarmPercent: Option<int>,
    automaticFireAlarmPercent: Option<int>,
    sprinklersPercent: Option<int>,
    roofMaterial: Option<string>,
    buildingNotes: Option<string>)

  /** `keyof DettaglioEdifici`. */
  datatype BuildingKey =
    | EntityName
    | BuildingId
    | BuildingName
    | Address
    | Occupancy
    | FloorAreaSm
    | BuildingRcvEur
    | ContentsRcvEur
    | TotalRcvEur
    | YearBuilt
    | ManualFireAlarmPercent
    | AutomaticFireAlarmPercent
    | SprinklersPercent
    | RoofMaterial
    | BuildingNotes

  /** Whether a `DettaglioEdifici` field holds a string or a number. */
  function BuildingKind(k: BuildingKey): Kind {
    match k
    case FloorAreaSm | BuildingRcvEur | ContentsRcvEur | TotalRcvEur | YearBuilt | ManualFireAlarmPercent | AutomaticFireAlarmPercent | SprinklersPercent => NumberField
    case EntityName | BuildingId | BuildingName | Address | Occupancy | RoofMaterial | BuildingNotes => TextField
  }

  /** `r[k]` for a `DettaglioEdifici` record. */
  function BuildingGet(r: DettaglioEdifici, k: BuildingKey): (v: Value)
    ensures Fits(BuildingKind(k), v)
  {
    match k
    case EntityName => OfText(r.entityName)
    case BuildingId => OfText(r.buildingId)
    case BuildingName => OfText(r.buildingName)
    case Address => OfText(r.address)
    case Occupancy => OfText(r.occupancy)
    case FloorAreaSm => OfNumber(r.floorAreaSm)
    case BuildingRcvEur => OfNumber(r.buildingRcvEur)
    case ContentsRcvEur => OfNumber(r.contentsRcvEur)
    case TotalRcvEur => OfNumber(r.totalRcvEur)
    case YearBuilt => OfNumber(r.yearBuilt)
    case ManualFireAlarmPercent => OfNumber(r.manualFireAlarmPercent)
    case AutomaticFireAlarmPercent => OfNumber(r.automaticFireAlarmPercent)
    case SprinklersPercent => OfNumber(r.sprinklersPercent)
    case RoofMaterial => OfText(r.roofMaterial)
    case BuildingNotes => OfText(r.buildingNotes)
  }

  /** `{...r, [k]: v}` for a `DettaglioEdifici` record: field `k` becomes `v`, every other field is kept. */
  function BuildingWith(r: DettaglioEdifici, k: BuildingKey, v: Value): (w: DettaglioEdifici)
    requires Fits(BuildingKind(k), v)
    ensures forall j :: BuildingGet(w, j) == if j == k then v else BuildingGet(r, j)
  {
    match k
    case EntityName => r.(entityName := AsText(v))
    case BuildingId => r.(buildingId := AsText(v))
    case BuildingName => r.(buildingName := AsText(v))
    case Address => r.(address := AsText(v))
    case Occupancy => r.(occupancy := AsText(v))
    case FloorAreaSm => r.(floorAreaSm := AsNumber(v))
    case BuildingRcvEur => r.(buildingRcvEur := AsNumber(v))
    case ContentsRcvEur => r.(contentsRcvEur := AsNumber(v))
    case TotalRcvEur => r.(totalRcvEur := AsNumber(v))
    case YearBuilt => r.(yearBuilt := AsNumber(v))
    case ManualFireAlarmPercent => r.(manualFireAlarmPercent := AsNumber(v))
    case AutomaticFireAlarmPercent => r.(automaticFireAlarmPercent := AsNumber(v))
    case SprinklersPercent => r.(sprinklersPercent := AsNumber(v))
    case RoofMaterial => r.(roofMaterial := AsText(v))
    case BuildingNotes => r.(buildingNotes := AsText(v))
  }

  /** `WebGrounding`: both properties are optional. */
  datatype WebGrounding = WebGrounding(uri: Option<string>, title: Option<string>)

  datatype GroundingChunk = GroundingChunk(web: WebGrounding)

  datatype GroundingMetadata = GroundingMetadata(groundingChunks: seq<GroundingChunk>)

  /** `WebNewsData`: the news summary and its sources, each nullable. */
  datatype WebNewsData = WebNewsData(summary: Option<string>, sources: Option<GroundingMetadata>)

  /**
   * `ExtractedData`: exactly seven parts. The five section records are always present
   * and the two lists are never null (at worst empty).
   */
  datatype ExtractedData = ExtractedData(
    riskSummary: RiskSummary,
    anagrafica: Anagrafica,
    propertyDetails: PropertyDetails,
    generalLiabilityDetails: GeneralLiabilityDetails,
    productLiabilityDetails: ProductLiabilityDetails,
    sublimits: seq<Sublimit>,
    dettaglioEdifici: seq<DettaglioEdifici>)

  /** `ChatMessage.sender` is exactly `'user'` or `'model'`. */
  datatype Sender = User | Model

  datatype ChatMessage = ChatMessage(sender: Sender, text: string)
}
