/**
 * The metrics of `components/SummaryDashboard.tsx`: the total insured value, the key
 * liability limit, the policy period and the data-completeness score over nine key fields.
 * Money and date formatting (`Intl`) are parameters; only their "N/A" branches are modelled.
 */
module Dashboard {
  import opened Wrappers
  import opened Js
  import opened Types
  import opened Form

  /** `x ?? 0` on a nullable number. */
  function OrZero(o: Option<int>): int {
    if o.Some? then o.value else 0
  }

  /** `tivPdTotalEur ?? 0` plus `tivBiSumInsEur ?? 0`. */
  function TotalInsuredValue(p: PropertyDetails): int {
    OrZero(p.tivPdTotalEur) + OrZero(p.tivBiSumInsEur)
  }

  /**
   * An absent part adds nothing: with both parts absent the total is 0, with one absent it
   * is the other, and with non-negative parts it is at least each of them.
   */
  lemma TotalInsuredValueParts(p: PropertyDetails)
    ensures p.tivPdTotalEur.None? && p.tivBiSumInsEur.None? ==> TotalInsuredValue(p) == 0
    ensures p.tivPdTotalEur.None? && p.tivBiSumInsEur.Some? ==> TotalInsuredValue(p) == p.tivBiSumInsEur.value
    ensures p.tivPdTotalEur.Some? && p.tivBiSumInsEur.None? ==> TotalInsuredValue(p) == p.tivPdTotalEur.value
    ensures OrZero(p.tivPdTotalEur) >= 0 && OrZero(p.tivBiSumInsEur) >= 0 ==>
              TotalInsuredValue(p) >= OrZero(p.tivPdTotalEur) && TotalInsuredValue(p) >= OrZero(p.tivBiSumInsEur)
  {
  }

  /** `Math.max(rctLimitEur ?? 0, rcpLimitEur ?? 0)`: the larger of the two limits. */
  function KeyLiabilityLimit(g: GeneralLiabilityDetails, pl: ProductLiabilityDetails): (r: int)
    ensures r >= OrZero(g.rctLimitEur) && r >= OrZero(pl.rcpLimitEur)
    ensures r == OrZero(g.rctLimitEur) || r == OrZero(pl.rcpLimitEur)
  {
    var rct := OrZero(g.rctLimitEur);
    var rcp := OrZero(pl.rcpLimitEur);
    if rct >= rcp then rct else rcp
  }

  /** `formatCurrency`; `format` stands for the `de-DE` euro formatter. */
  function FormatCurrency(v: Option<int>, format: int -> string): (r: string)
    ensures v.None? ==> r == NotAvailable
    ensures v.Some? ==> r == format(v.value)
  {
    if v.None? then NotAvailable else format(v.value)
  }

  /**
   * The two money cards always receive a number (the `?? 0` defaults), so they take the
   * formatter branch, never the absent-value branch: what they show is the formatter's
   * rendering of the computed metric.
   */
  lemma MoneyCardsAreFormatted(d: ExtractedData, format: int -> string)
    ensures FormatCurrency(Some(TotalInsuredValue(d.propertyDetails)), format) == format(TotalInsuredValue(d.propertyDetails))
    ensures FormatCurrency(Some(KeyLiabilityLimit(d.generalLiabilityDetails, d.productLiabilityDetails)), format)
            == format(KeyLiabilityLimit(d.generalLiabilityDetails, d.productLiabilityDetails))
  {
  }

  /**
   * `formatDate`: a falsy input shows "N/A"; any other text is handed to `render`, which
   * stands for the `Date` parse, the `en-GB` formatter and the fall-back to the input.
   */
  function FormatDate(s: Option<string>, render: string -> string): (r: string)
    ensures !TruthyText(s) ==> r == NotAvailable
    ensures TruthyText(s) ==> r == render(s.value)
  {
    if !TruthyText(s) then NotAvailable else render(s.value)
  }

  const PeriodSeparator := " - "

  /** The "Policy Period" card: the two dates around a dash. */
  function PolicyPeriod(a: Anagrafica, render: string -> string): string {
    FormatDate(a.periodFrom, render) + PeriodSeparator + FormatDate(a.periodTo, render)
  }

  /** With neither date extracted the card reads "N/A - N/A"; with one, the other side is "N/A". */
  lemma PolicyPeriodMissing(a: Anagrafica, render: string -> string)
    ensures !TruthyText(a.periodFrom) && !TruthyText(a.periodTo) ==> PolicyPeriod(a, render) == "N/A - N/A"
    ensures !TruthyText(a.periodFrom) ==> PolicyPeriod(a, render) == NotAvailable + PeriodSeparator + FormatDate(a.periodTo, render)
    ensures !TruthyText(a.periodTo) ==> PolicyPeriod(a, render) == FormatDate(a.periodFrom, render) + PeriodSeparator + NotAvailable
  {
  }

  /** The note under the period: the risk types, or the placeholder when they are falsy. */
  function RiskTypesNote(a: Anagrafica): (r: string)
    ensures TruthyText(a.riskTypes) ==> r == a.riskTypes.value
    ensures !TruthyText(a.riskTypes) ==> r == "Risk types"
  {
    OrText(a.riskTypes, "Risk types")
  }

  // ---------------------------------------------------------------------------
  // Data completeness
  // ---------------------------------------------------------------------------

  /** The nine key fields the score looks at, in the source's order. */
  function CompletenessCheck(d: ExtractedData): (r: seq<Value>)
    ensures |r| == 9
  {
    [ OfText(d.anagrafica.entityName),
      OfText(d.anagrafica.address),
      OfText(d.anagrafica.industry),
      OfNumber(d.anagrafica.annualRevenueAmount),
      OfText(d.anagrafica.periodFrom),
      OfText(d.anagrafica.periodTo),
      OfNumber(d.propertyDetails.tivPdTotalEur),
      OfNumber(d.propertyDetails.tivBiSumInsEur),
      OfNumber(d.generalLiabilityDetails.rctLimitEur) ]
  }

  /** How many values pass the filter `!== null && !== undefined && !== '' && !== 0`. */
  function FilledCount(vals: seq<Value>): nat {
    if |vals| == 0 then 0
    else FilledCount(vals[..|vals| - 1]) + (if IsValueMissing(vals[|vals| - 1]) then 0 else 1)
  }

  /** The count never exceeds the list; it is 0 exactly when every value is missing. */
  lemma {:induction false} FilledCountZeroIff(vals: seq<Value>)
    ensures FilledCount(vals) <= |vals|
    ensures FilledCount(vals) == 0 <==> forall i :: 0 <= i < |vals| ==> IsValueMissing(vals[i])
  {
    if |vals| > 0 {
      var init := vals[..|vals| - 1];
      FilledCountZeroIff(init);
      assert forall i :: 0 <= i < |init| ==> init[i] == vals[i];
    }
  }

  /** The count reaches the length exactly when no value is missing. */
  lemma {:induction false} FilledCountFullIff(vals: seq<Value>)
    ensures FilledCount(vals) == |vals| <==> forall i :: 0 <= i < |vals| ==> !IsValueMissing(vals[i])
  {
    if |vals| > 0 {
      var init := vals[..|vals| - 1];
      FilledCountFullIff(init);
      FilledCountZeroIff(init);
      assert forall i :: 0 <= i < |init| ==> init[i] == vals[i];
    }
  }

  /** Adding a filled value to the list adds one to the count; a missing one adds nothing. */
  lemma FilledCountSnoc(vals: seq<Value>, v: Value)
    ensures FilledCount(vals + [v]) == FilledCount(vals) + (if IsValueMissing(v) then 0 else 1)
  {
    assert (vals + [v])[..|vals|] == vals;
  }

  /**
   * `Math.round((filled / total) * 100)`: `Math.round(x)` is `floor(x + 1/2)`, which on the
   * exact quotient is the integer division below.
   */
  function RoundedPercent(filled: nat, total: nat): int
    requires total > 0
  {
    (200 * filled + total) / (2 * total)
  }

  /** The rounded percentage is the nearest integer to `100 * filled / total`, ties upward. */
  lemma RoundedPercentNearest(filled: nat, total: nat)
    requires total > 0
    ensures 200 * filled - total < 2 * total * RoundedPercent(filled, total) <= 200 * filled + total
  {
    var a := 200 * filled + total;
    var b := 2 * total;
    var q := a / b;
    assert a == q * b + a % b && 0 <= a % b < b;
    assert q * b == 2 * total * q;
  }

  /** For nine fields no tie can happen: twice `100 * filled` is never an odd multiple of 9/2. */
  lemma NoTiesOutOfNine(filled: nat)
    ensures (200 * filled) % 18 != 9
  {
    var q := (200 * filled) / 18;
    assert 200 * filled == 18 * q + (200 * filled) % 18;
  }

  /** The rounded percentage does not decrease as more fields are filled. */
  lemma RoundedPercentMonotone(f1: nat, f2: nat, total: nat)
    requires total > 0 && f1 <= f2
    ensures RoundedPercent(f1, total) <= RoundedPercent(f2, total)
  {
    var b := 2 * total;
    var a1 := 200 * f1 + total;
    var a2 := 200 * f2 + total;
    var q1 := a1 / b;
    var q2 := a2 / b;
    assert a1 == q1 * b + a1 % b && 0 <= a1 % b < b;
    assert a2 == q2 * b + a2 % b && 0 <= a2 % b < b;
    assert q1 * b < (q2 + 1) * b;
    ProductsOrdered(q1, q2 + 1, b);
  }

  /** Cancelling a positive factor from a strict inequality between products. */
  lemma ProductsOrdered(x: int, y: int, b: int)
    requires b > 0 && x * b < y * b
    ensures x < y
  {
    assert (y - x) * b > 0;
  }

  /** Out of nine: 0 exactly for none filled, 100 exactly for all nine, and always in range. */
  lemma RoundedPercentOfNine(filled: nat)
    requires filled <= 9
    ensures 0 <= RoundedPercent(filled, 9) <= 100
    ensures RoundedPercent(filled, 9) == 0 <==> filled == 0
    ensures RoundedPercent(filled, 9) == 100 <==> filled == 9
  {
    RoundedPercentNearest(filled, 9);
  }

  /** The number of key fields found in the document. */
  function FilledFields(d: ExtractedData): nat {
    FilledCount(CompletenessCheck(d))
  }

  /** The completeness score shown in the ring. */
  function CompletenessScore(d: ExtractedData): int {
    RoundedPercent(FilledFields(d), |CompletenessCheck(d)|)
  }

  /**
   * The score is a percentage; it is 0 exactly when all nine key fields are missing and 100
   * exactly when none is.
   */
  lemma CompletenessScoreRange(d: ExtractedData)
    ensures 0 <= CompletenessScore(d) <= 100
    ensures CompletenessScore(d) == 0 <==> forall i :: 0 <= i < 9 ==> IsValueMissing(CompletenessCheck(d)[i])
    ensures CompletenessScore(d) == 100 <==> forall i :: 0 <= i < 9 ==> !IsValueMissing(CompletenessCheck(d)[i])
  {
    FilledCountZeroIff(CompletenessCheck(d));
    FilledCountFullIff(CompletenessCheck(d));
    RoundedPercentOfNine(FilledFields(d));
  }

  /** Filling in a missing entity name never lowers the score. */
  lemma FillingEntityNameNeverLowersScore(d: ExtractedData, name: string)
    requires !TruthyText(d.anagrafica.entityName)
    ensures CompletenessScore(d) <= CompletenessScore(d.(anagrafica := d.anagrafica.(entityName := Some(name))))
  {
    var d' := d.(anagrafica := d.anagrafica.(entityName := Some(name)));
    var c := CompletenessCheck(d);
    var c' := CompletenessCheck(d');
    assert c'[1..] == c[1..];
    FilledCountCons(c[0], c[1..]);
    FilledCountCons(c'[0], c'[1..]);
    assert [c[0]] + c[1..] == c;
    assert [c'[0]] + c'[1..] == c';
    RoundedPercentMonotone(FilledFields(d), FilledFields(d'), 9);
  }

  /** Counting from the front: the first value contributes on its own. */
  lemma {:induction false} FilledCountCons(v: Value, vals: seq<Value>)
    ensures FilledCount([v] + vals) == (if IsValueMissing(v) then 0 else 1) + FilledCount(vals)
    decreases |vals|
  {
    if |vals| == 0 {
      assert [v] + vals == [v];
      assert [v][..0] == [];
    } else {
      var init := vals[..|vals| - 1];
      var last := vals[|vals| - 1];
      assert [v] + vals == ([v] + init) + [last];
      FilledCountSnoc([v] + init, last);
      FilledCountCons(v, init);
      FilledCountSnoc(init, last);
      assert init + [last] == vals;
    }
  }
}
