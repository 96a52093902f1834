# Underwriting workbench: a verified model of its core

The workbench takes insurance documents (PDF, Word, e-mails), has a language model extract a
structured risk record from them, shows that record in an editable form with a summary
dashboard and a chat assistant, and exports it as a CSV file, a PDF report or a draft
e-mail to the broker listing the missing data.

This project models the logic of that workbench in Dafny and proves what it promises:

- **App** (`App.tsx`): the session controller as a class. It holds the staged-file list
  with de-duplication by name and the four result slots. Its submit handler:
  - flattens e-mails into their body and attachments;
  - resolves MIME types;
  - runs the extraction;
  - then asks for news only for a named entity.
- **Gemini** (`services/geminiService.ts`):
  - the client factory;
  - the per-section failure boundary of the extraction and the merge of the seven
    sections with their empty defaults;
  - the post-processing of the web-news reply.
- **Types** (`types.ts`): the records, with field-by-key access and update.
- **Form**, **FormEmail**, **FormCsv**, **CsvField**, **FormPdf**
  (`components/EditableDataForm.tsx`):
  - the field configurations;
  - the edit handlers;
  - the "missing value" test;
  - the missing-data e-mail;
  - the CSV export, with the quoted-field encoding it follows (section 2 of RFC 4180)
    proved invertible;
  - the PDF report's section plan, numbered headings, key/value sections, tables, cover
    page, footers and file name.
- **PdfExport** (`components/PdfExportModal.tsx`): the export dialog's configuration
  record and its handlers, as a class.
- **Autocomplete** (`components/AutocompleteInput.tsx`):
  - the suggestion box as a class: filtering, highlight movement, selection and hiding;
  - the data-quality indicator lookup.
- **Chatbot** (`components/Chatbot.tsx`): the chat window as a class, with its message log
  and the error classification of a failed send.
- **Dashboard** (`components/SummaryDashboard.tsx`): the total insured value, the key
  liability limit, the policy period and the data-completeness score.
- **Js**, **Wrappers**: the JavaScript behaviour the code relies on, and Option/Result.
  The JavaScript behaviour covers falsiness, `toLowerCase`, `includes`, `trim`,
  `String(n)`, `join` and `Error.prototype.toString`.

The model's inputs stand in for the outside world:
- What the language model, the e-mail parsers and the environment return are inputs to the
  model: a section reply, a parser outcome, an API key.
- Money and date formatting are function parameters.
- The number of PDF pages the layout produced is a parameter.

Numbers are modelled as integers. `null` and `undefined` are one case, `None`, because the
code treats them alike everywhere modelled.

## Model

| member | source | states |
|---|---|---|
| Js.OrText | components/EditableDataForm.tsx:291 | definition: `a \|\| b` on a nullable text gives `a` when it is truthy and `b` otherwise |
| Js.ToLowerAt | components/AutocompleteInput.tsx:60 | `toLowerCase` maps each character on its own, keeping the length |
| Js.TrimEmptyIffBlank | components/Chatbot.tsx:60 | `trim()` gives the empty text exactly when the input is all white space |
| Js.ContainsIffOccurs | components/AutocompleteInput.tsx:60 | `indexOf(sub) > -1` holds exactly when `sub` occurs at some position |
| Js.IntToStringRoundTrip | components/EditableDataForm.tsx:519 | `String(n)` of an integer reads back as `n` |
| Js.JoinContainsPart | components/EditableDataForm.tsx:410 | every part of a `join` occurs in the joined text |
| Js.ErrorToString | components/Chatbot.tsx:76 | definition: `Error.prototype.toString`: name, `: ` and message, either part dropped when empty |
| Js.ErrorToStringKeepsMessage | components/Chatbot.tsx:76-77 | a word contained in an error's message is contained in its `toString()` |
| Types.AnagraficaGet | types.ts:3-28 | reading a field by key gives a value of that field's declared type |
| Types.PropertyGet | types.ts:30-47 | the same for property details |
| Types.GeneralLiabilityGet | types.ts:49-61 | the same for general liability |
| Types.ProductLiabilityGet | types.ts:63-72 | the same for product liability |
| Types.SublimitGet | types.ts:75-80 | the same for a sublimit |
| Types.BuildingGet | types.ts:82-98 | the same for a building |
| Types.AnagraficaWith | components/EditableDataForm.tsx:237-240 | `{...r, [k]: v}`: field `k` reads `v` afterwards, every other field its old value |
| Types.PropertyWith | components/EditableDataForm.tsx:237-240 | the same for property details |
| Types.GeneralLiabilityWith | components/EditableDataForm.tsx:237-240 | the same for general liability |
| Types.ProductLiabilityWith | components/EditableDataForm.tsx:237-240 | the same for product liability |
| Types.SublimitWith | components/EditableDataForm.tsx:247-250 | the same for one sublimit of the list |
| Types.BuildingWith | components/EditableDataForm.tsx:247-250 | the same for one building of the list |
| Form.Cells | components/EditableDataForm.tsx:314-331 | a field configuration read from a record gives one cell per configured field |
| Form.CellAt | components/EditableDataForm.tsx:314-331 | the `i`-th cell carries the `i`-th configured label and that field's value |
| Form.HandleChange | components/EditableDataForm.tsx:234-243 | editing one field keeps every other section of the record |
| Form.HandleChangeAt | components/EditableDataForm.tsx:234-243 | after an edit, the edited field holds the new value and every other field its old one |
| Form.HandleArrayChange | components/EditableDataForm.tsx:245-256 | only element `index` of the edited list changes, only in the edited field; the list keeps its length and the rest of the record is kept |
| Form.MissingTextIsFalsy | components/EditableDataForm.tsx:307-309 | a text field counts as missing exactly when it is falsy |
| Form.MissingNumberIsAbsentOrZero | components/EditableDataForm.tsx:307-309 | a number field counts as missing exactly when it is absent or 0 |
| Form.Sanitize | components/EditableDataForm.tsx:432-438 | strings and numbers become `String(v)`; anything else becomes `N/A` |
| Form.SanitizeNotAvailable | components/EditableDataForm.tsx:432-438 | `N/A` comes out exactly for an absent or non-printable value or the text `N/A`, never for a number |
| Form.UnderscoreWhitespaceHasNone | components/EditableDataForm.tsx:415 | after `replace(/\s+/g, '_')` no white space is left |
| Form.UnderscoreWhitespaceKeeps | components/EditableDataForm.tsx:415 | a text without white space is left as it is |
| FormEmail.ScannedSections | components/EditableDataForm.tsx:266-271 | the scan visits the four record sections |
| FormEmail.MissingLines | components/EditableDataForm.tsx:276-283 | a section lists at most one line per configured field |
| FormEmail.MissingLinesListsMissing | components/EditableDataForm.tsx:277-283 | a line is listed exactly when it is the `- label` of a missing field |
| FormEmail.MissingLinesEmpty | components/EditableDataForm.tsx:276-287 | a section lists nothing exactly when none of its fields is missing |
| FormEmail.MissingGroups | components/EditableDataForm.tsx:273-289 | at most one group per scanned section |
| FormEmail.MissingGroupsListsSections | components/EditableDataForm.tsx:273-289 | a group is listed exactly when some section contributes it (its title and its non-empty missing lines) |
| FormEmail.MissingGroupsEmpty | components/EditableDataForm.tsx:273-292 | no group is listed exactly when no field of any scanned section is missing |
| FormEmail.GroupTexts | components/EditableDataForm.tsx:296-298 | one text per group |
| FormEmail.GroupTextAt | components/EditableDataForm.tsx:296-298 | the `i`-th text is the `i`-th group's title and lines |
| FormEmail.CollectMissingGroups | components/EditableDataForm.tsx:273-289 | the two nested loops collect exactly the groups of the specification function |
| FormEmail.MissingLinesStep | components/EditableDataForm.tsx:277-283 | one more field adds its line exactly when it is missing |
| FormEmail.MissingGroupsStep | components/EditableDataForm.tsx:273-289 | one more section adds its group exactly when something in it is missing |
| FormEmail.DraftBody | components/EditableDataForm.tsx:292-300 | the body built from the collected groups is the specified body |
| FormEmail.GenerateEmailForMissingData | components/EditableDataForm.tsx:263-305 | the subject names the entity (or `N/A`); the body lists the missing groups |
| FormEmail.RequestBodyOpens | components/EditableDataForm.tsx:294-299 | with groups, the body opens with the request template |
| FormEmail.CompleteBodyDiffers | components/EditableDataForm.tsx:300 | without groups, the body does not open like the request template |
| FormEmail.RequestOpeningIffGroups | components/EditableDataForm.tsx:294-300 | the body opens like the request exactly when there is some group |
| FormEmail.RequestTemplateIffMissing | components/EditableDataForm.tsx:273-300 | the body uses the request template exactly when some scanned field is missing |
| FormEmail.MissingFieldIsListed | components/EditableDataForm.tsx:273-300 | every missing field's `- label` line occurs in the body |
| CsvField.DoubleQuotes | components/EditableDataForm.tsx:342 | doubling the quotes never shortens the text |
| CsvField.Quoted | components/EditableDataForm.tsx:342 | a quoted field starts and ends with `"` |
| CsvField.UnescapeDoubled | components/EditableDataForm.tsx:342 | reading back a doubled content and its closing quote gives the content |
| CsvField.QuotedRoundTrip | components/EditableDataForm.tsx:342 | reading a quoted field gives back its content |
| CsvField.UnescapeCanonical | components/EditableDataForm.tsx:342 | whatever reads as a field's inside is the doubled content and a closing quote |
| CsvField.UnquoteIffQuoted | components/EditableDataForm.tsx:342 | a text reads as `s` exactly when it is the quoting of `s` |
| CsvField.DoubleQuotesWithoutQuotes | components/EditableDataForm.tsx:344 | content without quotes is written between the quotes unchanged |
| FormCsv.EscapeCsvCellIsQuoted | components/EditableDataForm.tsx:336-345 | both branches of `escapeCsvCell` write the quoted field of the value's text |
| FormCsv.EscapeCsvCellRoundTrip | components/EditableDataForm.tsx:336-345 | an escaped cell reads back as exactly the value's text |
| FormCsv.EscapeCsvCellInjective | components/EditableDataForm.tsx:336-345 | two values are written alike exactly when they stand for the same text |
| FormCsv.KeyValueBlock | components/EditableDataForm.tsx:353-359 | a key/value section has its fields plus three rows |
| FormCsv.KeyValueBlockAt | components/EditableDataForm.tsx:353-359 | title row, `Field`/`Value` header, one `[label, escaped value]` row per field, closing empty row |
| FormCsv.AnagraficaExportCells | components/EditableDataForm.tsx:355-358 | the 23 configured fields and `Data Status` |
| FormCsv.PropertyExportCells | components/EditableDataForm.tsx:363-367 | the 12 configured fields, the notes and `Data Status` |
| FormCsv.GeneralLiabilityExportCells | components/EditableDataForm.tsx:372-376 | the 9 configured fields, the notes and `Data Status` |
| FormCsv.ProductLiabilityExportCells | components/EditableDataForm.tsx:381-385 | the 6 configured fields, the notes and `Data Status` |
| FormCsv.RiskBlock | components/EditableDataForm.tsx:349-351 | the risk summary takes three rows |
| FormCsv.SublimitRow | components/EditableDataForm.tsx:393 | one cell per configured sublimit field |
| FormCsv.BuildingRow | components/EditableDataForm.tsx:403-404 | one cell per configured building field, plus the notes |
| FormCsv.TableBlock | components/EditableDataForm.tsx:388-408 | a table is absent for an empty list, else its elements plus three rows |
| FormCsv.TableBlockAt | components/EditableDataForm.tsx:388-396 | title row, header, the `j`-th element's row two rows down, closing empty row |
| FormCsv.SublimitBlock | components/EditableDataForm.tsx:388-396 | the sublimits table is present only for a non-empty list |
| FormCsv.BuildingBlock | components/EditableDataForm.tsx:398-408 | the building table is present only for a non-empty list |
| FormCsv.SublimitRowFitsHeader | components/EditableDataForm.tsx:390-393 | every sublimit row has as many cells as the header |
| FormCsv.BuildingRowFitsHeader | components/EditableDataForm.tsx:400-405 | every building row has as many cells as the header |
| FormCsv.PartsOf | components/EditableDataForm.tsx:334 | the parts read from a record have the configured sizes, and the two lists are the record's |
| FormCsv.CsvLayout | components/EditableDataForm.tsx:347-408 | where each section lies: rows 0-2, 3, 30, 47 and 61, then the tables from row 72 |
| FormCsv.PushFieldRows | components/EditableDataForm.tsx:355-357 | the loop appends exactly one row per field, in order |
| FormCsv.PushKeyValueBlock | components/EditableDataForm.tsx:353-359 | a pushed section is its specified block |
| FormCsv.PushTableBlock | components/EditableDataForm.tsx:388-408 | a pushed table is its specified block, nothing for an empty list |
| FormCsv.BuildCsvRows | components/EditableDataForm.tsx:347-408 | the rows pushed are the specified rows |
| FormCsv.RowTexts | components/EditableDataForm.tsx:410 | one text per row |
| FormCsv.RowTextAt | components/EditableDataForm.tsx:410 | each row's text is its cells joined by commas |
| FormCsv.CsvContentHoldsRow | components/EditableDataForm.tsx:410 | every row's joined cells occur in the document |
| FormCsv.CsvContentSnoc | components/EditableDataForm.tsx:410 | one more row adds a line feed and that row |
| FormCsv.RowTextsAppend | components/EditableDataForm.tsx:410 | the row texts of two row lists are concatenated |
| FormCsv.CsvFileNameShape | components/EditableDataForm.tsx:415 | a named file starts with the name with white space replaced, ends with the suffix, and holds no white space before it |
| FormCsv.HandleExportCsv | components/EditableDataForm.tsx:333-424 | the file offered is the specified document under the specified name |
| FormCsv.BuildCsvContent | components/EditableDataForm.tsx:347-410 | the document is the rows joined |
| PdfExport.WithFlag | components/PdfExportModal.tsx:69 | setting a flag keeps both texts |
| PdfExport.WithFlagAt | components/PdfExportModal.tsx:69 | setting flag `f` changes flag `f` and no other flag |
| PdfExport.WithText | components/PdfExportModal.tsx:73 | setting a text changes that text only |
| PdfExport.ToggledAt | components/PdfExportModal.tsx:69 | a toggle flips exactly the named flag |
| PdfExport.DefaultConfigValues | components/PdfExportModal.tsx:50-62 | every section is on by default, the custom cover off, both texts empty |
| PdfExport.ToggleTwice | components/PdfExportModal.tsx:68-70 | toggling twice restores the record |
| PdfExport.TextEditUndone | components/PdfExportModal.tsx:72-74 | typing the old text back restores the record |
| PdfExport.PdfExportModal.constructor | components/PdfExportModal.tsx:49-62 | the dialog starts from the default record |
| PdfExport.PdfExportModal.HandleCheckboxChange | components/PdfExportModal.tsx:68-70 | the record becomes the toggled one |
| PdfExport.PdfExportModal.HandleInputChange | components/PdfExportModal.tsx:72-74 | the record gets the typed text |
| PdfExport.PdfExportModal.HandleGenerateClick | components/PdfExportModal.tsx:76-79 | the current record is handed over and the dialog closes |
| FormPdf.SectionAtRank | components/EditableDataForm.tsx:582-680 | positions and sections correspond one to one |
| FormPdf.PlanUpToMembers | components/EditableDataForm.tsx:582-680 | the first `k` blocks emit exactly the sections before `k` whose guard holds |
| FormPdf.SectionPlanMembers | components/EditableDataForm.tsx:582-680 | a section is in the report exactly when its switch is on and its data condition holds |
| FormPdf.PlanUpToOrdered | components/EditableDataForm.tsx:582-680 | the first `k` blocks emit their sections in rendering order |
| FormPdf.SectionPlanOrdered | components/EditableDataForm.tsx:582-680 | sections appear in the fixed order, each at most once |
| FormPdf.Headings | components/EditableDataForm.tsx:514-522 | one heading per section of the plan |
| FormPdf.HeadingsSnoc | components/EditableDataForm.tsx:514-522 | one more section adds a heading numbered one past the count so far |
| FormPdf.HeadingNumber | components/EditableDataForm.tsx:519 | the `i`-th heading reads back as `i + 1`, `. ` and the section's title |
| FormPdf.RenderBlock | components/EditableDataForm.tsx:582-680 | each guarded block keeps the headings and the counter in step with the plan |
| FormPdf.RenderSectionTitles | components/EditableDataForm.tsx:582-680 | the headings printed are the plan's, numbered consecutively from 1 |
| FormPdf.ParagraphShown | components/EditableDataForm.tsx:524-535 | a paragraph is printed exactly for a number, or for a text other than `N/A` with a non-blank character |
| FormPdf.KeyValueEntries | components/EditableDataForm.tsx:537-578 | one line per field, plus one for printable notes |
| FormPdf.KeyValueEntriesShape | components/EditableDataForm.tsx:543-576 | every field is printed in order whatever its value; the notes come last and are skipped exactly when not printable |
| FormPdf.SublimitTableBodyAt | components/EditableDataForm.tsx:648-659 | each body row has one sanitized cell under each heading |
| FormPdf.BuildingTableBodyAt | components/EditableDataForm.tsx:661-680 | the same for buildings, with the notes in the last column |
| FormPdf.CoverMetaLines | components/EditableDataForm.tsx:492-503 | the policy number and underwriter lines appear exactly with the custom cover and a non-empty text; with both texts the cover holds exactly the policy-number line followed by the underwriter line |
| FormPdf.FooterNameCases | components/EditableDataForm.tsx:463 | the footer shows the entity name unless it is absent or `N/A` |
| FormPdf.PageLabelsDistinct | components/EditableDataForm.tsx:473 | different pages carry different labels |
| FormPdf.AddFooters | components/EditableDataForm.tsx:461-476 | every page from the first to the last gets `Page i of n` and the name |
| FormPdf.PdfFileNameShape | components/EditableDataForm.tsx:684 | the name ends with the suffix, holds no white space before it, and is `N/A_Risk_Report.pdf` without an entity name |
| FormPdf.GeneratePdfReport | components/EditableDataForm.tsx:426-686 | cover, numbered headings, footers and file name of the report |
| Gemini.EmptyAnagrafica | services/geminiService.ts:6-11 | every field of the default is null |
| Gemini.EmptyPropertyDetails | services/geminiService.ts:12-16 | every field of the default is null |
| Gemini.EmptyGeneralLiabilityDetails | services/geminiService.ts:17-20 | every field of the default is null |
| Gemini.EmptyProductLiabilityDetails | services/geminiService.ts:21-24 | every field of the default is null |
| Gemini.EmptyRiskSummary | services/geminiService.ts:264 | the fallback summary is null |
| Gemini.GetAiClient | services/geminiService.ts:31-37 | a client exactly for a truthy key; otherwise the configuration error |
| Gemini.ExtractSection | services/geminiService.ts:176-200 | definition: the parsed reply, or the default when anything threw |
| Gemini.SectionValue | services/geminiService.ts:263-272 | definition: `result.key \|\| empty`; reading off a `null` result throws |
| Gemini.ExtractDataFromDocument | services/geminiService.ts:202-275 | fails only without a key or on a `null` reply; otherwise each part is its own section's data or its empty default |
| Gemini.AllSectionsFailing | services/geminiService.ts:252-272 | every section failing still gives an all-null record with empty lists |
| Gemini.NormalizeChunks | services/geminiService.ts:293-296 | definition: a non-array `groundingChunks` becomes `[]` |
| Gemini.FetchWebNews | services/geminiService.ts:277-310 | a falsy name gives null; errors are rethrown; a reply gives null exactly without summary and sources |
| App.AfterLastDot | App.tsx:80 | the extension is a suffix of the name, after its last dot |
| App.AfterLastDotHasNoDot | App.tsx:80 | the extension holds no dot |
| App.MimeForExtension | App.tsx:81-94 | never empty; `application/octet-stream` exactly for an unknown extension |
| App.GetMimeType | App.tsx:76-95 | the declared type unless it is empty or generic, else by extension |
| App.FinalMimeType | App.tsx:200-204 | only the generic type is looked up again; the result is empty exactly when the declared type is |
| App.FirstUntyped | App.tsx:206-208 | the first file without a declared type, if any |
| App.MimeTypes | App.tsx:196-212 | one MIME type per file |
| App.MimeTypesAt | App.tsx:196-212 | each file is sent with its own final MIME type |
| App.ResolveMimeTypes | App.tsx:196-212 | succeeds exactly when every file declares a type; otherwise fails naming the first that does not |
| App.ResolvedMimeTypeNonEmpty | App.tsx:206-209 | every MIME type sent is non-empty |
| App.EmlAttachmentFiles | App.tsx:127-131 | one file per `.eml` attachment, typed as `new File` normalizes its declared type |
| App.EmlAttachmentFileAt | App.tsx:129 | each attachment keeps its name and content; its type is the declared one lowercased, or empty when that holds a character outside printable ASCII |
| App.FileTypeCases | App.tsx:129 | `new File(…, { type })` empties the type exactly when it is empty or holds a character outside U+0020..U+007E, and otherwise lowercases each character |
| App.FileTypeIdempotent | App.tsx:129 | a type the `File` constructor has normalized is left unchanged by a second pass |
| App.EmlAttachmentFilesSnoc | App.tsx:127-131 | one more attachment, one more file |
| App.ReadableCount | App.tsx:152-157 | the attachments read before the first that throws |
| App.MsgAttachmentFiles | App.tsx:152-157 | one file per readable `.msg` attachment |
| App.MsgAttachmentFileAt | App.tsx:154-155 | each keeps its name and content and is typed octet-stream |
| App.MsgAttachmentFilesStop | App.tsx:152-157 | reading stops at the first attachment that throws |
| App.MsgAttachmentFilesSnoc | App.tsx:152-157 | another readable attachment adds its file |
| App.ExpandEml | App.tsx:108-169 | a parsed `.eml` gives its body file then its attachments; a failed one its own text |
| App.ExpandMsg | App.tsx:132-174 | a read `.msg` gives its body file and readable attachments, then the original if one failed; a failed one the original |
| App.ExpandEmlAttachmentAt | App.tsx:124-131 | a parsed `.eml`'s `k`-th attachment file comes right after its body file |
| App.ExpandFile | App.tsx:104-175 | every file yields at least one output; a non-e-mail passes unchanged |
| App.FlattenAppend | App.tsx:101-179 | outputs stay contiguous and in input order |
| App.FlattenLength | App.tsx:101-179 | at least one output per staged file |
| App.FlattenWithoutEmails | App.tsx:101-179 | without e-mails the list passes unchanged |
| App.FlattenHoldsEmlAttachment | App.tsx:101-179 | an `.eml` attachment reaches the files to analyse after the outputs of the staged files before its e-mail and after that e-mail's body |
| App.FlattenKeepsPlainFile | App.tsx:158-160 | a non-e-mail file appears as it is after the outputs of the files before it |
| App.PushEmlAttachments | App.tsx:127-131 | the loop appends exactly the attachment files |
| App.PushMsgAttachments | App.tsx:152-157 | the loop appends the readable attachments and reports whether one threw |
| App.AllReadableCount | App.tsx:152-157 | when every attachment can be read, all are |
| App.PushEml | App.tsx:108-131 | the `.eml` branch appends its expansion |
| App.PushMsg | App.tsx:132-157 | the `.msg` branch appends its expansion |
| App.PushExpansion | App.tsx:104-175 | the loop body appends the staged file's expansion |
| App.FlattenSnoc | App.tsx:101-179 | one more staged file appends its expansion |
| App.FlattenPrefixStep | App.tsx:104-176 | the prefix form of the step the loop uses |
| App.ProcessAndFlattenFiles | App.tsx:101-179 | the loop builds exactly the flattened list |
| App.UniqueNewFiles | App.tsx:40-41 | keeps exactly the added files whose names are not staged |
| App.UniqueNewFilesAppend | App.tsx:41 | the filter keeps input order |
| App.UniqueNewFilesAllFresh | App.tsx:41 | with no staged name among them, the whole batch is kept |
| App.RemoveAt | App.tsx:53 | drops the element at the index, or nothing for an index out of range |
| App.SubmitErrorText | App.tsx:254 | definition: an `Error`'s message, else the unknown-error text |
| App.NewsRawMessage | App.tsx:224-240 | definition: the message an `Error`, a plain object or another value yields |
| App.ClassifyNewsError | App.tsx:242-246 | the rate-limit text exactly when the raw text mentions `RESOURCE_EXHAUSTED` or `429` |
| App.RateLimitedErrorClassified | App.tsx:224-246 | an `Error` mentioning the quota is classified as a rate limit |
| App.FailedRun | App.tsx:253-257 | a failed run shows only the error |
| App.NewsErrorText | App.tsx:222-246 | a news error is one of the two texts |
| App.ReceivedData | App.tsx:214-252 | news is asked for only for a truthy entity name |
| App.SubmitRun | App.tsx:192-257 | data or an error, never both; news or a news error only for a named entity, never both |
| App.UntypedFileFailsRun | App.tsx:206-208 | a staged non-e-mail file without a type fails the run |
| App.NonPrintableAttachmentUnresolved | App.tsx:196-208 | an `.eml` attachment whose declared type holds a character outside printable ASCII leaves a file without a type, so the MIME types cannot be resolved |
| App.NonPrintableAttachmentFailsRun | App.tsx:127-257 | such an attachment fails the whole run with an error and no data |
| App.MissingKeyFailsRun | App.tsx:214 | without a key the run reports the configuration error |
| App.NewsOnlyForNamedEntity | App.tsx:218 | with a falsy name the news reply is never consulted |
| App.Session.constructor | App.tsx:22-35 | the empty initial state; configured exactly with a key |
| App.Session.HandleFilesAdd | App.tsx:38-50 | appends the new names; the results are cleared exactly when one was added |
| App.Session.HandleFileRemove | App.tsx:52-54 | drops the file at the index; the results are kept |
| App.Session.HandleClearFiles | App.tsx:56-62 | empties the list and the four result slots |
| App.Session.HandleDataUpdate | App.tsx:260-262 | the edited record replaces the extracted one |
| App.Session.StartSubmit | App.tsx:182-190 | nothing without files, else the reset |
| App.Session.FailSubmit | App.tsx:253-257 | the slots of a failed run, both loading flags off |
| App.Session.ReceiveData | App.tsx:214-252 | the slots after the data arrived |
| App.Session.CompleteSubmit | App.tsx:192-257 | the slots are those of the specified run |
| App.Session.HandleSubmit | App.tsx:182-258 | the whole handler, the staged list kept |
| Autocomplete.Filter | components/AutocompleteInput.tsx:58-61 | never more suggestions than given |
| Autocomplete.FilterMembers | components/AutocompleteInput.tsx:58-61 | a suggestion is kept exactly when it contains the input, both lowercased |
| Autocomplete.FilterAppend | components/AutocompleteInput.tsx:58-61 | filtering keeps the original order |
| Autocomplete.FilterEmptyInput | components/AutocompleteInput.tsx:58-61 | an empty input keeps every suggestion |
| Autocomplete.FilterIgnoresCase | components/AutocompleteInput.tsx:60 | inputs differing only in case filter alike |
| Autocomplete.AutocompleteInput.VisibleListHighlights | components/AutocompleteInput.tsx:95-101 | while the list is visible, the highlight is on a filtered suggestion |
| Autocomplete.AutocompleteInput.constructor | components/AutocompleteInput.tsx:39-41 | nothing filtered, nothing shown, highlight on the first row |
| Autocomplete.AutocompleteInput.HandleChange | components/AutocompleteInput.tsx:56-67 | passes the raw input up, filters, shows, highlights the first row |
| Autocomplete.AutocompleteInput.HandleClick | components/AutocompleteInput.tsx:69-73 | passes the suggestion up, clears and hides the list |
| Autocomplete.AutocompleteInput.HandleClickOutside | components/AutocompleteInput.tsx:44-54 | hides the list, keeps the rest |
| Autocomplete.AutocompleteInput.HandleKeyDownAsWritten | components/AutocompleteInput.tsx:75-92 | no effect while hidden; Enter clicks the highlighted entry, even `undefined`; the arrows stop at the ends; Escape hides |
| Autocomplete.AutocompleteInput.HandleKeyDown | components/AutocompleteInput.tsx:75-92 | every key as written: nothing while hidden, the arrows stop at the ends, Escape hides, other keys change nothing; except that Enter with nothing highlighted does nothing, so anything emitted is a filtered suggestion |
| Autocomplete.NoMatch | components/AutocompleteInput.tsx:58-61 | `zz` matches nothing in `["ok"]` |
| Autocomplete.EnterWithoutMatch | components/AutocompleteInput.tsx:77-79 | typing `zz` and pressing Enter sends `undefined` to the parent |
| Autocomplete.EnterWithoutMatchIntended | components/AutocompleteInput.tsx:77-79 | with the intended handler the typed text stays |
| Autocomplete.StatusConstructorThrows | components/AutocompleteInput.tsx:112-116 | a status of `constructor` makes the rendering throw |
| Autocomplete.ConstructorIsLowerCase | components/AutocompleteInput.tsx:112 | `constructor` is already lower case |
| Autocomplete.InheritedStatusThrows | components/AutocompleteInput.tsx:112-116 | any status lowercasing to an inherited member name throws |
| Autocomplete.StatusMapGetEntry | components/AutocompleteInput.tsx:22-26 | the map finds an entry exactly for its three keys |
| Autocomplete.StatusIndicatorIff | components/AutocompleteInput.tsx:112-116 | the intended indicator shows kind `k` exactly for `k`'s key, lowercased, and agrees with the code wherever that does not throw |
| Autocomplete.StatusIgnoresCase | components/AutocompleteInput.tsx:112 | `OK`, `Ok` and `ok` give the same indicator |
| Chatbot.ErrorReplyTextIff | components/Chatbot.tsx:74-80 | the overload text exactly for an `Error` whose `toString()` mentions `503`, `UNAVAILABLE` or `overloaded` |
| Chatbot.ServiceUnavailableIsOverload | components/Chatbot.tsx:74-80 | an `Error` whose message mentions `503` is an overload |
| Chatbot.ChatWindow.constructor | components/Chatbot.tsx:20-51 | the greeting alone, empty input, idle; a session exactly with a key |
| Chatbot.ChatWindow.ToggleOpen | components/Chatbot.tsx:93 | the window opens or closes |
| Chatbot.ChatWindow.SetInput | components/Chatbot.tsx:155 | the input takes the typed text |
| Chatbot.ChatWindow.BeginSend | components/Chatbot.tsx:58-65 | accepted exactly when the guard holds; then the question is logged, the input cleared, loading set |
| Chatbot.ChatWindow.CompleteSend | components/Chatbot.tsx:67-86 | one answer is logged, the reply or the apology; loading cleared |
| Chatbot.ChatWindow.HandleSendMessage | components/Chatbot.tsx:58-87 | an accepted send appends the question and exactly one answer and keeps the earlier log |
| Dashboard.TotalInsuredValueParts | components/SummaryDashboard.tsx:73 | an absent part adds nothing |
| Dashboard.KeyLiabilityLimit | components/SummaryDashboard.tsx:74 | at least each limit and equal to one of them |
| Dashboard.FormatCurrency | components/SummaryDashboard.tsx:48-51 | `N/A` for an absent value |
| Dashboard.MoneyCardsAreFormatted | components/SummaryDashboard.tsx:100-110 | the two money cards take the formatter branch, never the absent-value branch |
| Dashboard.FormatDate | components/SummaryDashboard.tsx:53-67 | `N/A` for a falsy input |
| Dashboard.PolicyPeriodMissing | components/SummaryDashboard.tsx:75 | a missing date shows as `N/A` on its side of the dash |
| Dashboard.RiskTypesNote | components/SummaryDashboard.tsx:115 | definition: the risk types, or the placeholder when falsy |
| Dashboard.CompletenessCheck | components/SummaryDashboard.tsx:78-88 | nine key fields |
| Dashboard.FilledCountZeroIff | components/SummaryDashboard.tsx:90 | the count is at most the length, and 0 exactly when every value is missing |
| Dashboard.FilledCountFullIff | components/SummaryDashboard.tsx:90 | the count is the length exactly when no value is missing |
| Dashboard.FilledCountSnoc | components/SummaryDashboard.tsx:90 | a filled value adds one, a missing one nothing |
| Dashboard.FilledCountCons | components/SummaryDashboard.tsx:90 | the same counted from the front |
| Dashboard.RoundedPercentNearest | components/SummaryDashboard.tsx:91 | the score is the nearest integer to `100 * filled / total`, ties upward |
| Dashboard.NoTiesOutOfNine | components/SummaryDashboard.tsx:91 | out of nine fields no tie occurs |
| Dashboard.RoundedPercentMonotone | components/SummaryDashboard.tsx:91 | more filled fields never lower the score |
| Dashboard.RoundedPercentOfNine | components/SummaryDashboard.tsx:91 | in [0, 100]; 0 exactly for none filled, 100 exactly for all nine |
| Dashboard.CompletenessScoreRange | components/SummaryDashboard.tsx:78-91 | the score is 0 exactly when all nine fields are missing and 100 exactly when none is |
| Dashboard.FillingEntityNameNeverLowersScore | components/SummaryDashboard.tsx:78-91 | filling in a missing entity name never lowers the score |

## Left out

- Rendering: the JSX, styles, icons, tooltips, modal markup, scrolling and auto-scroll are presentation, not logic.
- Context components: `FileUpload`, `EmailModal`, `WebNews`, `SideNav`, `Header` and `ErrorMessage` are not part of this model.
- Calls to the language model go through an SDK whose code is not available. Prompts, schemas, model names and temperatures are left out. Each request is replaced by its outcome, given as an input.
- `fileToBase64` and `FileReader` are browser I/O. File contents are opaque and only the MIME types are modelled.
- Concurrency: `Promise.all` rejects with whichever file fails first in time. The model reports the first unsupported file in list order. React batching of state updates is not modelled; each handler is one atomic step.
- `console.error` logging is not modelled.
- Floating point: numbers are integers. Fractional values such as `ratePerMille` are not representable, and neither is `String(x)` for a non-integer.
- Dashboard.FormatCurrency: the `de-DE` euro formatting is a parameter; only the `N/A` branch is stated, because `Intl` is not available.
- Dashboard.FormatDate: `Date` parsing, the `en-GB` formatting and the fall-back to the input are one parameter; only the `N/A` branch is stated, for the same reason.
- Dashboard.RoundedPercent: computed on exact rationals. The source divides in floating point first; `NoTiesOutOfNine` shows that no score lies on a tie, so that rounding error cannot change the result.
- The completeness ring's geometry (`Math.PI`, stroke offset) is floating-point drawing.
- `toLowerCase` and the white-space class of `trim` and `/\s/` are modelled on ASCII only; Unicode case mapping is out of scope.
- PDF layout: positions, fonts, colours, `splitTextToSize`, `checkPageBreak`, `autoTable` and the landscape page for buildings are layout. The page count is a parameter of `AddFooters` and `GeneratePdfReport`.
- The body of the PDF's Latest News section (`Web Summary` and the `Recent Mentions` list) is not modelled; only its numbered heading and its guard are. It applies the same printable test as `FormPdf.ParagraphShown`.
- The `Blob`, object URL and link click of the CSV download, and `doc.save`, are browser I/O. The model returns the content and the file name.
- Chatbot: the session is re-created whenever the record changes, with a system instruction embedding the record; the model keeps one session flag. A reply whose `text` is `undefined` is not representable; replies are strings.
- Gemini.ExtractDataFromDocument: a truthy `sublimits` or `dettaglioEdifici` member that is not an array (an object such as `{}`, a text such as `"none"`, a number such as `5`) passes `|| []` unchanged into the record, and later code that indexes or maps it breaks. The model cannot represent it: a list section's member is a sequence or absent. Likewise a truthy member of the other five sections that is not an object of the section's shape is not representable. All of these are violations of the response schema each request sends.
- Gemini.ExtractSection: `response.text` being undefined makes `JSON.parse` throw, which the model counts as `Threw`.
- Autocomplete: the parent's `onChange` is shown as the value emitted; the parent's `value` prop is a parameter of `ListVisible`.
- App.ExpandEml: a parser result whose attachments are not iterable or hold a `null` entry (the loop throws after the body file was pushed, and the catch then adds the raw-text fallback) is not representable; a parsed `.eml` always lists well-formed attachments, as Gemini's schema violations are left out above.
- App.NewsRawMessage: a truthy `error.message` in a thrown plain object that is not a string (the number 429, say) is not representable; in the source `rawMessage.includes` then throws outside the inner `try`, and the outer catch reports it through `setError` instead of `setNewsError`, after the extracted data was already stored.
- App.FileType: an attachment whose `contentType` is `undefined` (the `File` constructor then gives `""`) is modelled by the empty string.
- App: `isApiKeyConfigured` is modelled after the mount effect has run; the first render, before the effect, is left out.

## Findings

| source | as written | input that shows it | evidently intended | confidence | as-written member | corrected member |
|---|---|---|---|---|---|---|
| components/AutocompleteInput.tsx:77-79 | Enter calls `handleClick(filteredSuggestions[activeSuggestionIndex])` even when the filtered list is empty, passing `undefined` to `onChange` | suggestions `["ok"]`, type `zz`, press Enter | Enter with no highlighted suggestion leaves the typed text alone | not executed | Autocomplete.EnterWithoutMatch | Autocomplete.AutocompleteInput.HandleKeyDown |
| components/AutocompleteInput.tsx:112-116 | `statusMap[status.toLowerCase()]` on a plain object literal also finds `Object.prototype` members; the truthy result has no `Icon`, so rendering throws | status `constructor` | only `ok`, `partial` and `ambiguous` show an indicator; any other status shows none | not executed | Autocomplete.StatusConstructorThrows | Autocomplete.StatusIndicatorIff |
