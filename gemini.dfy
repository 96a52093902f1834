/**
 * `services/geminiService.ts` around its calls to the model service: the all-null default
 * records, the client factory, the per-section failure boundary, the merge of the seven
 * section results, and the post-processing of the web-news reply.
 *
 * Every request is replaced by its outcome, given as an input: a section reply is either
 * what `JSON.parse` returned for the reply text or the error the request or the parse threw.
 */
module Gemini {
  import opened Wrappers
  import opened Js
  import opened Types

  // ---------------------------------------------------------------------------
  // Empty defaults

  function EmptyAnagrafica(): (a: Anagrafica)
    ensures forall k :: AnagraficaGet(a, k) == Null
  {
    Anagrafica(None, None, None, None, None, None, None, None, None, None, None, None,
               None, None, None, None, None, None, None, None, None, None, None, None)
  }

  function EmptyPropertyDetails(): (p: PropertyDetails)
    ensures forall k :: PropertyGet(p, k) == Null
  {
    PropertyDetails(None, None, None, None, None, None, None, None,
                    None, None, None, None, None, None, None, None)
  }

  function EmptyGeneralLiabilityDetails(): (g: GeneralLiabilityDetails)
    ensures forall k :: GeneralLiabilityGet(g, k) == Null
  {
    GeneralLiabilityDetails(None, None, None, None, None, None, None, None, None, None, None)
  }

  function EmptyProductLiabilityDetails(): (p: ProductLiabilityDetails)
    ensures forall k :: ProductLiabilityGet(p, k) == Null
  {
    ProductLiabilityDetails(None, None, None, None, None, None, None, None)
  }

  /** The risk-summary fallback `{ riskSummary: null }`. */
  function EmptyRiskSummary(): (s: RiskSummary)
    ensures s.riskSummary.None?
  {
    RiskSummary(None)
  }

  // ---------------------------------------------------------------------------
  // Client

  const ApiKeyMissingMessage := "API_KEY is not configured. Please ensure it is set up in your environment variables."

  /** The client `getAiClient` builds; only its key matters to the model. */
  datatype Client = Client(apiKey: string)

  /** `getAiClient`, with `process.env.API_KEY` passed in: throws unless the key is truthy. */
  function GetAiClient(apiKey: Option<string>): (r: Result<Client, Thrown>)
    ensures r.Success? <==> TruthyText(apiKey)
    ensures r.Success? ==> r.value.apiKey == apiKey.value
    ensures r.Failure? ==> r.error == ErrorInstance("Error", ApiKeyMissingMessage)
  {
    if TruthyText(apiKey) then Success(Client(apiKey.value))
    else Failure(ErrorInstance("Error", ApiKeyMissingMessage))
  }

  // ---------------------------------------------------------------------------
  // One section

  /**
   * What `JSON.parse` returned for a section reply, as seen through the section's key.
   * `JsonValue(Some(v))`: a value whose key holds the truthy object or array `v`.
   * `JsonValue(None)`: any other non-null value (the key is missing, or holds a falsy value).
   * `JsonNull`: the text was `null`, so reading the key throws a `TypeError`.
   */
  datatype ParsedJson<T> = JsonNull | JsonValue(member: Option<T>)

  /** The outcome of one section request: the parsed reply, or what the request or parse threw. */
  datatype SectionReply<T> = Replied(json: ParsedJson<T>) | Threw(err: Thrown)

  /** `extractSection`: the parsed reply, or `defaultValue` when anything threw. Never throws. */
  function ExtractSection<T>(reply: SectionReply<T>, defaultValue: ParsedJson<T>): (r: ParsedJson<T>)
    ensures reply.Replied? ==> r == reply.json
    ensures reply.Threw? ==> r == defaultValue
  {
    match reply
    case Replied(json) => json
    case Threw(_) => defaultValue
  }

  /** `result.key || empty`, where reading `key` off a `null` result throws. */
  function SectionValue<T>(key: string, result: ParsedJson<T>, empty: T): (r: Result<T, Thrown>)
    ensures result.JsonNull? <==> r.Failure?
    ensures r.Failure? ==> r.error == ReadOfNull(key)
    ensures result.JsonValue? && result.member.Some? ==> r == Success(result.member.value)
    ensures result.JsonValue? && result.member.None? ==> r == Success(empty)
  {
    match result
    case JsonNull => Failure(ReadOfNull(key))
    case JsonValue(member) => Success(member.GetOr(empty))
  }

  const ReadOfNullPrefix := "Cannot read properties of null (reading '"

  /** The `TypeError` a property read on `null` throws. */
  function ReadOfNull(key: string): Thrown {
    ErrorInstance("TypeError", ReadOfNullPrefix + key + "')")
  }

  // ---------------------------------------------------------------------------
  // All seven sections

  /** The outcomes of the seven section requests that `Promise.all` joins. */
  datatype SectionReplies = SectionReplies(
    riskSummary: SectionReply<RiskSummary>,
    anagrafica: SectionReply<Anagrafica>,
    propertyDetails: SectionReply<PropertyDetails>,
    generalLiabilityDetails: SectionReply<GeneralLiabilityDetails>,
    productLiabilityDetails: SectionReply<ProductLiabilityDetails>,
    sublimits: SectionReply<seq<Sublimit>>,
    dettaglioEdifici: SectionReply<seq<DettaglioEdifici>>)

  /** The section's own data, when its request succeeded and carried a truthy value. */
  function Delivered<T>(reply: SectionReply<T>): Option<T> {
    if reply.Replied? && reply.json.JsonValue? then reply.json.member else None
  }

  /** Some section reply parsed to `null`. */
  predicate SomeReplyIsNull(rs: SectionReplies) {
    || rs.riskSummary == Replied(JsonNull)
    || rs.anagrafica == Replied(JsonNull)
    || rs.propertyDetails == Replied(JsonNull)
    || rs.generalLiabilityDetails == Replied(JsonNull)
    || rs.productLiabilityDetails == Replied(JsonNull)
    || rs.sublimits == Replied(JsonNull)
    || rs.dettaglioEdifici == Replied(JsonNull)
  }

  /**
   * `extractDataFromDocument`: builds the client (outside every `try`), runs the seven
   * section requests through `extractSection`, and merges their results with `||`.
   */
  function ExtractDataFromDocument(apiKey: Option<string>, rs: SectionReplies): (r: Result<ExtractedData, Thrown>)
    // No key: the same error whatever the sections would have replied, so none was asked.
    ensures !TruthyText(apiKey) ==> r == Failure(ErrorInstance("Error", ApiKeyMissingMessage))
    // A `null` reply is the only other way the whole extraction fails.
    ensures TruthyText(apiKey) ==> (r.Failure? <==> SomeReplyIsNull(rs))
    ensures r.Failure? ==> r.error.ErrorInstance?
    // Isolation: each part is its own section's data, or that section's empty default.
    ensures r.Success? ==>
      && r.value.riskSummary == Delivered(rs.riskSummary).GetOr(EmptyRiskSummary())
      && r.value.anagrafica == Delivered(rs.anagrafica).GetOr(EmptyAnagrafica())
      && r.value.propertyDetails == Delivered(rs.propertyDetails).GetOr(EmptyPropertyDetails())
      && r.value.generalLiabilityDetails == Delivered(rs.generalLiabilityDetails).GetOr(EmptyGeneralLiabilityDetails())
      && r.value.productLiabilityDetails == Delivered(rs.productLiabilityDetails).GetOr(EmptyProductLiabilityDetails())
      && r.value.sublimits == Delivered(rs.sublimits).GetOr([])
      && r.value.dettaglioEdifici == Delivered(rs.dettaglioEdifici).GetOr([])
  {
    var _ :- GetAiClient(apiKey);
    var riskSummaryResult := ExtractSection(rs.riskSummary, JsonValue(Some(EmptyRiskSummary())));
    var anagraficaResult := ExtractSection(rs.anagrafica, JsonValue(Some(EmptyAnagrafica())));
    var propertyResult := ExtractSection(rs.propertyDetails, JsonValue(Some(EmptyPropertyDetails())));
    var generalResult := ExtractSection(rs.generalLiabilityDetails, JsonValue(Some(EmptyGeneralLiabilityDetails())));
    var productResult := ExtractSection(rs.productLiabilityDetails, JsonValue(Some(EmptyProductLiabilityDetails())));
    var sublimitsResult := ExtractSection(rs.sublimits, JsonValue(Some([])));
    var buildingsResult := ExtractSection(rs.dettaglioEdifici, JsonValue(Some([])));
    var riskSummary :- SectionValue("riskSummary", riskSummaryResult, EmptyRiskSummary());
    var anagrafica :- SectionValue("anagrafica", anagraficaResult, EmptyAnagrafica());
    var propertyDetails :- SectionValue("propertyDetails", propertyResult, EmptyPropertyDetails());
    var generalLiability :- SectionValue("generalLiabilityDetails", generalResult, EmptyGeneralLiabilityDetails());
    var productLiability :- SectionValue("productLiabilityDetails", productResult, EmptyProductLiabilityDetails());
    var sublimits :- SectionValue("sublimits", sublimitsResult, []);
    var buildings :- SectionValue("dettaglioEdifici", buildingsResult, []);
    Success(ExtractedData(riskSummary, anagrafica, propertyDetails, generalLiability, productLiability,
                          sublimits, buildings))
  }

  /** Every section failing still yields a record: all fields null, both lists empty. */
  lemma AllSectionsFailing(apiKey: Option<string>, rs: SectionReplies)
    requires TruthyText(apiKey)
    requires rs.riskSummary.Threw? && rs.anagrafica.Threw? && rs.propertyDetails.Threw?
    requires rs.generalLiabilityDetails.Threw? && rs.productLiabilityDetails.Threw?
    requires rs.sublimits.Threw? && rs.dettaglioEdifici.Threw?
    ensures ExtractDataFromDocument(apiKey, rs) == Success(ExtractedData(
      EmptyRiskSummary(), EmptyAnagrafica(), EmptyPropertyDetails(), EmptyGeneralLiabilityDetails(),
      EmptyProductLiabilityDetails(), [], []))
  {
  }

  // ---------------------------------------------------------------------------
  // Web news

  /** `groundingMetadata.groundingChunks` as received: an array, or anything else. */
  datatype RawChunks = ChunkArray(items: seq<GroundingChunk>) | NotAnArray

  /**
   * The news reply: `response.text`, and the grounding metadata of the first candidate
   * (None when `candidates?.[0]?.groundingMetadata` is absent).
   */
  datatype NewsReply = NewsReply(text: Option<string>, metadata: Option<RawChunks>)

  datatype NewsAttempt = Answered(reply: NewsReply) | RequestRejected(err: Thrown)

  /** What `fetchWebNews`'s promise settles to. */
  datatype NewsOutcome = Resolved(news: Option<WebNewsData>) | Rejected(err: Thrown)

  /** The in-place fix-up: a non-array `groundingChunks` becomes `[]`. */
  function NormalizeChunks(raw: RawChunks): (m: GroundingMetadata)
    ensures raw.NotAnArray? ==> m.groundingChunks == []
    ensures raw.ChunkArray? ==> m.groundingChunks == raw.items
  {
    match raw
    case ChunkArray(items) => GroundingMetadata(items)
    case NotAnArray => GroundingMetadata([])
  }

  /** `!sources || sources.groundingChunks.length === 0`, after the fix-up. */
  predicate HasNoSources(metadata: Option<RawChunks>) {
    metadata.None? || |NormalizeChunks(metadata.value).groundingChunks| == 0
  }

  /** `fetchWebNews`, with the API key and the outcome of its one request as inputs. */
  function FetchWebNews(entityName: Option<string>, apiKey: Option<string>, attempt: NewsAttempt): (r: NewsOutcome)
    // A falsy name short-circuits: nothing is asked, whatever key or reply there would be.
    ensures !TruthyText(entityName) ==> r == Resolved(None)
    // Otherwise errors are rethrown unchanged.
    ensures TruthyText(entityName) && !TruthyText(apiKey) ==> r == Rejected(ErrorInstance("Error", ApiKeyMissingMessage))
    ensures TruthyText(entityName) && TruthyText(apiKey) && attempt.RequestRejected? ==> r == Rejected(attempt.err)
    // A reply gives null exactly when it has neither a truthy summary nor a source.
    ensures TruthyText(entityName) && TruthyText(apiKey) && attempt.Answered? ==>
      && r.Resolved?
      && (r.news.None? <==> !TruthyText(attempt.reply.text) && HasNoSources(attempt.reply.metadata))
      && (r.news.Some? ==> r.news.value.summary == attempt.reply.text)
      && (r.news.Some? && attempt.reply.metadata.Some? ==>
            r.news.value.sources == Some(NormalizeChunks(attempt.reply.metadata.value)))
      && (r.news.Some? && attempt.reply.metadata.None? ==> r.news.value.sources.None?)
  {
    if !TruthyText(entityName) then Resolved(None)
    else match GetAiClient(apiKey)
      case Failure(e) => Rejected(e)
      case Success(_) =>
        match attempt
        case RequestRejected(e) => Rejected(e)
        case Answered(reply) =>
          var summary := reply.text;
          var sources := if reply.metadata.Some? then Some(NormalizeChunks(reply.metadata.value)) else None;
          var hasNoSources := sources.None? || |sources.value.groundingChunks| == 0;
          if !TruthyText(summary) && hasNoSources then Resolved(None)
          else Resolved(Some(WebNewsData(summary, sources)))
  }
}
