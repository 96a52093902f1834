/**
 * The PDF export dialog of `components/PdfExportModal.tsx`: a single configuration record,
 * created with fixed defaults when the dialog is mounted and then updated one field at a
 * time by its checkboxes and text inputs. "Generate" hands the current record to the
 * report generator and closes the dialog.
 */
module PdfExport {

  /** `PdfExportConfig`: eight section switches, the cover-page switch and two texts. */
  datatype PdfExportConfig = PdfExportConfig(
    includeRiskSummary: bool,
    includeLatestNews: bool,
    includeAnagrafica: bool,
    includePropertyDetails: bool,
    includeGeneralLiabilityDetails: bool,
    includeProductLiabilityDetails: bool,
    includeSublimits: bool,
    includeBuildingDetails: bool,
    useCustomCoverPage: bool,
    policyNumber: string,
    underwriterName: string)

  /** The boolean fields of the record: the ones a checkbox toggles. */
  datatype Flag =
    | IncludeRiskSummary
    | IncludeLatestNews
    | IncludeAnagrafica
    | IncludePropertyDetails
    | IncludeGeneralLiabilityDetails
    | IncludeProductLiabilityDetails
    | IncludeSublimits
    | IncludeBuildingDetails
    | UseCustomCoverPage

  /** The two text fields of the record, the ones a text input sets. */
  datatype TextField = PolicyNumber | UnderwriterName

  /** `config[f]` for a boolean field. */
  function FlagValue(c: PdfExportConfig, f: Flag): bool {
    match f
    case IncludeRiskSummary => c.includeRiskSummary
    case IncludeLatestNews => c.includeLatestNews
    case IncludeAnagrafica => c.includeAnagrafica
    case IncludePropertyDetails => c.includePropertyDetails
    case IncludeGeneralLiabilityDetails => c.includeGeneralLiabilityDetails
    case IncludeProductLiabilityDetails => c.includeProductLiabilityDetails
    case IncludeSublimits => c.includeSublimits
    case IncludeBuildingDetails => c.includeBuildingDetails
    case UseCustomCoverPage => c.useCustomCoverPage
  }

  /** `config[t]` for a text field. */
  function TextValue(c: PdfExportConfig, t: TextField): string {
    match t
    case PolicyNumber => c.policyNumber
    case UnderwriterName => c.underwriterName
  }

  /** `{...config, [f]: b}`: the texts are kept; `WithFlagAt` says what happens to the flags. */
  function WithFlag(c: PdfExportConfig, f: Flag, b: bool): (r: PdfExportConfig)
    ensures r.policyNumber == c.policyNumber && r.underwriterName == c.underwriterName
  {
    match f
    case IncludeRiskSummary => c.(includeRiskSummary := b)
    case IncludeLatestNews => c.(includeLatestNews := b)
    case IncludeAnagrafica => c.(includeAnagrafica := b)
    case IncludePropertyDetails => c.(includePropertyDetails := b)
    case IncludeGeneralLiabilityDetails => c.(includeGeneralLiabilityDetails := b)
    case IncludeProductLiabilityDetails => c.(includeProductLiabilityDetails := b)
    case IncludeSublimits => c.(includeSublimits := b)
    case IncludeBuildingDetails => c.(includeBuildingDetails := b)
    case UseCustomCoverPage => c.(useCustomCoverPage := b)
  }

  /** Setting flag `f` changes flag `f` to the new value and no other flag. */
  lemma WithFlagAt(c: PdfExportConfig, f: Flag, b: bool, g: Flag)
    ensures FlagValue(WithFlag(c, f, b), g) == if g == f then b else FlagValue(c, g)
  {
  }

  /** `{...config, [t]: s}`: the text field `t` becomes `s` and no other field changes. */
  function WithText(c: PdfExportConfig, t: TextField, s: string): (r: PdfExportConfig)
    ensures forall g :: FlagValue(r, g) == FlagValue(c, g)
    ensures forall u :: TextValue(r, u) == if u == t then s else TextValue(c, u)
  {
    match t
    case PolicyNumber => c.(policyNumber := s)
    case UnderwriterName => c.(underwriterName := s)
  }

  /** `{...prev, [f]: !prev[f]}`. */
  function Toggled(c: PdfExportConfig, f: Flag): PdfExportConfig {
    WithFlag(c, f, !FlagValue(c, f))
  }

  /** A toggle flips exactly the flag `f` and keeps both texts. */
  lemma ToggledAt(c: PdfExportConfig, f: Flag, g: Flag)
    ensures FlagValue(Toggled(c, f), g) == if g == f then !FlagValue(c, f) else FlagValue(c, g)
    ensures forall t :: TextValue(Toggled(c, f), t) == TextValue(c, t)
  {
    WithFlagAt(c, f, !FlagValue(c, f), g);
  }

  /** The record the dialog starts from. */
  const DefaultConfig := PdfExportConfig(true, true, true, true, true, true, true, true, false, "", "")

  /** Every section is included by default, without a custom cover page and with empty texts. */
  lemma DefaultConfigValues(f: Flag, t: TextField)
    ensures FlagValue(DefaultConfig, f) <==> f != UseCustomCoverPage
    ensures TextValue(DefaultConfig, t) == ""
  {
  }

  /** Clicking the same checkbox twice restores the record. */
  lemma ToggleTwice(c: PdfExportConfig, f: Flag)
    ensures Toggled(Toggled(c, f), f) == c
  {
    match f
    case IncludeRiskSummary =>
    case IncludeLatestNews =>
    case IncludeAnagrafica =>
    case IncludePropertyDetails =>
    case IncludeGeneralLiabilityDetails =>
    case IncludeProductLiabilityDetails =>
    case IncludeSublimits =>
    case IncludeBuildingDetails =>
    case UseCustomCoverPage =>
  }

  /** Typing the old text back into an input restores the record. */
  lemma TextEditUndone(c: PdfExportConfig, t: TextField, s: string)
    ensures WithText(WithText(c, t, s), t, TextValue(c, t)) == c
  {
    match t
    case PolicyNumber =>
    case UnderwriterName =>
  }

  /** The dialog's state; `isOpen` is the parent's flag that `onClose` clears. */
  class PdfExportModal {
    var config: PdfExportConfig
    var isOpen: bool

    /** Mounting the dialog: the record starts from the defaults. */
    constructor (isOpen: bool)
      ensures config == DefaultConfig
      ensures this.isOpen == isOpen
    {
      config := DefaultConfig;
      this.isOpen := isOpen;
    }

    /** `handleCheckboxChange`: flips the named flag. */
    method HandleCheckboxChange(f: Flag)
      modifies this`config
      ensures config == Toggled(old(config), f)
    {
      config := Toggled(config, f);
    }

    /** `handleInputChange`: sets the named text field to the typed value. */
    method HandleInputChange(t: TextField, value: string)
      modifies this`config
      ensures config == WithText(old(config), t, value)
    {
      config := WithText(config, t, value);
    }

    /** `handleGenerateClick`: passes the current record to `onGenerate`, then closes. */
    method HandleGenerateClick() returns (generated: PdfExportConfig)
      modifies this`isOpen
      ensures generated == config
      ensures !isOpen
    {
      generated := config;
      isOpen := false;
    }
  }
}
