# ColoriAI core, modelled in Dafny

ColoriAI is a personal-colour web app. The visitor goes through three onboarding steps:

1. They pick an age and a style.
2. They upload a selfie.
3. An LLM returns a Markdown/CSV colour report, and an outfit image is generated from one line of that report.

The report page parses the report text into a structured record. A reports API lists a user's saved reports.

This project models the logic behind those steps. The foreign services are inputs: the LLM, the identity provider, the database and the image service.

Files:

- **`report_parser.dfy`**, module `ReportParser`: the report page's line-by-line parser. It has:
  - a `Section` enum;
  - record datatypes for colours, makeup products and the report;
  - the `else if` chain of markers;
  - the data-row dispatch.

  `ParseLines` is the source's `for` loop, proved equal to the fold `Run` of the one-line function `Step`. `LoadReport` is the surrounding guard.
- **`report_parser_properties.dfy`**, module `ReportParserProperties`. It proves, for the parser:
  - which marker wins;
  - which rows are dropped;
  - append versus overwrite;
  - trimming;
  - the initial defaults;
  - a well-formedness invariant kept over any text.
- **`report_view.dfy`**, module `ReportView`: the popup toggle `showInfo` and the celebrity image slug.
- **`reports_api.dfy`**:
  - Module `ReportsApi`: the `GET /api/reports` handler as a function. Its inputs are the database, the session and the identity lookup.
  - Module `ReportsApiProperties`: which reports each kind of caller sees, and in what order.
- **`gemini.dfy`**:
  - Module `Gemini`: `analyzeFace`. It covers the data-URL split, the age and style defaults, the prompt, and the error wrapping. The model call is a function parameter.
  - Module `GeminiProperties`: its properties.
- **`browser.dfy`**, module `Browser`: a `BrowserState` class. It holds the three key/value stores (cookies, localStorage, sessionStorage) and the log of router navigations. Every page acts on it.
- **`selfie_page.dfy`**:
  - Module `SelfiePage`:
    - the image-prompt regex capture and its acceptance rule;
    - the Continue handler, as a specification function `ContinueOutcome` and as the `SelfiePageState` class whose methods are proved against it;
    - the cookie gate;
    - the back button.
  - Module `SelfiePageProperties`: its properties.
- **`style_page.dfy`**, modules `StylePage` and `StylePageProperties`: the style step's entry guard, its clean-up, and the style buttons.
- **`home_page.dfy`**, modules `HomePage` and `HomePageProperties`: the home page's admin check, the main button's destination and its label.
- **`strings.dfy`**, module `Strings`: the JavaScript string operations the code relies on, with their lemmas:
  - `split`, `trim`, `trimStart`, `includes`, `startsWith`, the first-occurrence `replace`;
  - `||` on optional strings (`Or`) and truthiness (`Truthy`).
- **`wrappers.dfy`**, module `Wrappers`: `Option` and `Result`.

JavaScript values that may be `undefined`, `null` or `''` are `Option<string>`. `Truthy` holds only for a present, non-empty string.

Where the code awaits a service, the model takes the service's answer (or the service as a function) as an input.

## Model

| member | source | states |
|---|---|---|
| ReportParser.MarkerText | src/app/report/page.tsx:162-188 | every marker is a bold `**…` text, so a line with a marker starts the chain and no data row contains one |
| ReportParser.SectionOf | src/app/report/page.tsx:167-187 | every header marker opens a real section, never the initial empty one |
| ReportParser.MarkerOrderRanks | src/app/report/page.tsx:162-190 | the twelve markers are checked in a fixed order, each at its own position |
| ReportParser.FirstMarkerFrom | src/app/report/page.tsx:162-190 | a marker chosen from the k-th test on is contained in the line and checked no earlier than k |
| ReportParser.MatchMarker | src/app/report/page.tsx:162-190 | a chosen marker is contained in the trimmed line |
| ReportParser.FirstMarkerFromIsFirst | src/app/report/page.tsx:162-190 | the chain from test k picks the first marker from k on that the line contains, and None exactly when it contains none |
| ReportParser.MatchMarkerIsFirst | src/app/report/page.tsx:162-190 | the marker that acts is the first one, in test order, contained in the line; no marker acts exactly when none is contained |
| ReportParser.TextAfterIsSecondPiece | src/app/report/page.tsx:163-165 | the text after a marker is the second piece of `split(marker)`, which exists whenever the line contains the marker |
| ReportParser.TextAfterIsNextPiece | src/app/report/page.tsx:172 | the text after a marker runs from its first occurrence to the next one, or to the end |
| ReportParser.TextAfter | src/app/report/page.tsx:163-189 | definition: the text after the first occurrence of a marker, what `split(marker)[1]` reads; proved about it in `TextAfterIsSecondPiece` and `TextAfterIsNextPiece` |
| ReportParser.ColorRow | src/app/report/page.tsx:191-205 | definition: the colour-row rule, the first two comma fields kept trimmed when both are non-empty and not header words, compared untrimmed; proved about it in `ColorRowFields`, `LabelHeaderRowDropped`, `NameHeaderRowDropped`, `SpacedHeaderRowKept` and `ColorRowNameNonEmpty` |
| ReportParser.ProductRow | src/app/report/page.tsx:207-208 | a product is read exactly when the row has at least five comma fields |
| ReportParser.ApplyMarker | src/app/report/page.tsx:162-189 | definition: the effect of a marker line, inline fields for season type, jewelry tone and image prompt, a new section for the others; proved about it in `SeasonTypeNeedsText`, `JewelryToneFields`, `JewelryToneWithoutComma`, `ImagePromptOverwritten`, `ApplyMarkerKeepsCollections` and `ApplyMarkerKeepsWellFormed` |
| ReportParser.StoreProduct | src/app/report/page.tsx:209-259 | definition: a product appended to its section's list, or replacing the cushion; proved about it in `StoreProductOnlyAppends`, `StoreProductKeepsTrimmed` and `CushionLastRowWins` |
| ReportParser.ApplyRow | src/app/report/page.tsx:190-263 | definition: the data-row dispatch on the current section; proved about it in `ApplyRowOnlyAppends`, `ApplyRowKeepsWellFormed`, `ProductRowNeedsDash`, `ProductRowStored`, `CelebrityRowAppended` and `RowWithoutSectionDropped` |
| ReportParser.Step | src/app/report/page.tsx:158-264 | definition: one iteration of the loop, trim, skip a blank line, the marker chain, then the data-row dispatch for a non-bold line; proved about it in `BlankLineChangesNothing`, `StepSeesTrimmedLine`, `FirstMarkerWins`, `UnknownBoldLineChangesNothing`, `StepOnMarker`, `StepOnDataRow`, `StepOnlyAppends` and `StepKeepsWellFormed` |
| ReportParser.Run | src/app/report/page.tsx:158-265 | definition: the loop as a left fold of `Step`; proved about it in `RunConcat`, `RunOnlyAppends`, `RowsBeforeFirstHeaderDropped`, `RunKeepsWellFormed` and `RunKeepsStyle`, and equal to `ParseLines` |
| ReportParser.InitialData | src/app/report/page.tsx:137-156 | definition: the record before any line is read; proved about it in `InitialDefaults` |
| ReportParser.ParseAnalysis | src/app/report/page.tsx:135-265 | definition: the text split on newlines and folded from the section `''`; proved about it in `ParsedReportWellFormed`, and what `LoadReport` returns |
| ReportParser.ParseLines | src/app/report/page.tsx:158-265 | the loop over lines, reassigning the section and the record at each line, computes exactly the fold `Run` of `Step` over the lines from the initial record |
| ReportParser.ReadMarkerLine | src/app/report/page.tsx:162-189 | the marker branches give the new section and record that `ApplyMarker` describes |
| ReportParser.ReadDataRow | src/app/report/page.tsx:190-263 | the row branches give the new section and record that `ApplyRow` describes |
| ReportParser.LoadReport | src/app/report/page.tsx:130-156 | without stored report text (missing or empty) nothing is parsed; otherwise the result is the text split on newlines and parsed from the defaults |
| ReportParserProperties.BlankLineChangesNothing | src/app/report/page.tsx:159-160 | a line that trims to empty changes neither the section nor the record |
| ReportParserProperties.StepSeesTrimmedLine | src/app/report/page.tsx:159 | only the trimmed line matters |
| ReportParserProperties.FirstMarkerWins | src/app/report/page.tsx:162-189 | when `m` is the first marker in test order that the trimmed line contains, the line acts as `m` |
| ReportParserProperties.UnknownBoldLineChangesNothing | src/app/report/page.tsx:190 | a line starting with `**` that names no known marker leaves section and record unchanged |
| ReportParserProperties.StepOnMarker | src/app/report/page.tsx:162-189 | a line with a marker is handled by that marker alone |
| ReportParserProperties.StepOnDataRow | src/app/report/page.tsx:190-263 | a non-empty, unmarked, non-bold line is dispatched as a data row on the trimmed text |
| ReportParserProperties.InlineMarkerKeepsSection | src/app/report/page.tsx:162-173 | season type, jewelry tone and image prompt lines never move the section and touch no list |
| ReportParserProperties.SeasonTypeNeedsText | src/app/report/page.tsx:163-166 | the season type becomes the trimmed text after its marker only when that text is non-empty; otherwise nothing changes |
| ReportParserProperties.JewelryToneFields | src/app/report/page.tsx:172-173 | with a comma, the tone's name and hex are the trimmed first two comma fields; later fields are ignored |
| ReportParserProperties.JewelryToneWithoutComma | src/app/report/page.tsx:172-173 | without a comma the tone is still overwritten, with the trimmed text as its name and an empty hex |
| ReportParserProperties.ImagePromptOverwritten | src/app/report/page.tsx:188-189 | the image prompt is always overwritten with the trimmed text after its marker |
| ReportParserProperties.ColorRowFields | src/app/report/page.tsx:191-205 | a colour row is kept, as its trimmed first two fields, exactly when both are non-empty and neither is a header word; later fields are ignored |
| ReportParserProperties.LabelHeaderRowDropped | src/app/report/page.tsx:193 | the `Label, HEX` header row of the colour extraction is dropped |
| ReportParserProperties.NameHeaderRowDropped | src/app/report/page.tsx:198 | the `Name, HEX` header row of the palette and hair sections is dropped |
| ReportParserProperties.SpacedHeaderRowKept | src/app/report/page.tsx:193-194 | header words are compared before trimming: a header word followed by spaces before the comma is kept as a colour named after the header |
| ReportParserProperties.ProductRowNeedsFourCommas | src/app/report/page.tsx:207-208 | a product row is read exactly when it has at least four commas |
| ReportParserProperties.ProductRowFields | src/app/report/page.tsx:209-215 | a product is its five leading comma fields, trimmed; later fields are ignored |
| ReportParserProperties.ProductRowNeedsDash | src/app/report/page.tsx:206-250 | in a product section, a row without a leading `- ` is dropped |
| ReportParserProperties.ProductRowStored | src/app/report/page.tsx:206-260 | in a product section, a `- ` row is read from the text after the dash and stored in that section's field |
| ReportParserProperties.CushionLastRowWins | src/app/report/page.tsx:217-227 | a valid cushion row replaces the cushion whatever it was, so the last valid row wins |
| ReportParserProperties.CelebrityRowAppended | src/app/report/page.tsx:261-262 | a celebrity row appends its trimmed name after the dash |
| ReportParserProperties.ApplyRowOnlyAppends | src/app/report/page.tsx:190-263 | a data row keeps the section and the inline fields, and every list of the new record extends the old one |
| ReportParserProperties.StoreProductOnlyAppends | src/app/report/page.tsx:209-259 | storing a product appends it to its list, or replaces only the cushion |
| ReportParserProperties.ColorRowOnlyAppends | src/app/report/page.tsx:191-205 | the colour branches keep the section and inline fields and only append |
| ReportParserProperties.StepOnlyAppends | src/app/report/page.tsx:158-265 | one line never removes or reorders list entries |
| ReportParserProperties.ApplyMarkerKeepsCollections | src/app/report/page.tsx:162-189 | a marker line never touches a list or the cushion |
| ReportParserProperties.RunConcat | src/app/report/page.tsx:158 | reading lines `a` then `b` is reading `a + b` |
| ReportParserProperties.RunOnlyAppends | src/app/report/page.tsx:158-265 | over a whole text every list only grows by appending, in input order |
| ReportParserProperties.RowsBeforeFirstHeaderDropped | src/app/report/page.tsx:136 | until a header line is read the section stays unset and no list changes |
| ReportParserProperties.StepBeforeFirstHeader | src/app/report/page.tsx:136 | with no section open, a line that opens none leaves the section unset and the lists alone |
| ReportParserProperties.RowWithoutSectionDropped | src/app/report/page.tsx:136 | before any header, a data row goes nowhere |
| ReportParserProperties.ColorRowNameNonEmpty | src/app/report/page.tsx:193-194 | a kept colour row of a trimmed line has a non-empty first field |
| ReportParserProperties.ColorRowKeepsWellFormed | src/app/report/page.tsx:191-205 | the colour branches keep the record well formed (all stored fields trimmed, names and labels non-empty) |
| ReportParserProperties.ApplyRowKeepsWellFormed | src/app/report/page.tsx:190-263 | a data row keeps the record well formed |
| ReportParserProperties.ProductRowKeepsWellFormed | src/app/report/page.tsx:206-260 | a product row keeps the record well formed |
| ReportParserProperties.StoreProductKeepsTrimmed | src/app/report/page.tsx:209-259 | storing a trimmed product keeps every product list trimmed |
| ReportParserProperties.ApplyMarkerKeepsWellFormed | src/app/report/page.tsx:162-189 | a marker line keeps the record well formed |
| ReportParserProperties.StepKeepsWellFormed | src/app/report/page.tsx:158-265 | one line keeps the record well formed |
| ReportParserProperties.RunKeepsWellFormed | src/app/report/page.tsx:158-265 | any sequence of lines keeps the record well formed |
| ReportParserProperties.InitialDefaults | src/app/report/page.tsx:137-156 | the defaults: all lists and strings empty, the style or `Casual`, and the image falling back from `outfitImage` to `generatedImageUrl` to `/outfit-demo.png` |
| ReportParserProperties.ParsedReportWellFormed | src/app/report/page.tsx:135-265 | every parsed report is well formed and keeps the default style |
| ReportParserProperties.RunKeepsStyle | src/app/report/page.tsx:151-155 | parsing never touches the style type or the generated image |
| ReportParserProperties.StepKeepsStyle | src/app/report/page.tsx:151-155 | one line never touches the style type or the generated image |
| ReportView.ShowInfo | src/app/report/page.tsx:63-65 | the popup closes exactly when the pressed id was open; otherwise the pressed id opens |
| ReportView.ShowInfoShowsAtMostPressed | src/app/report/page.tsx:63-65 | after a press only the pressed popup can be open, and it is open exactly when it was not before |
| ReportView.ShowInfoTwice | src/app/report/page.tsx:63-65 | two presses of the same id restore the previous state exactly when nothing or that id was open; from another open id they close everything |
| ReportView.ShowInfoSwitches | src/app/report/page.tsx:63-65 | pressing a different id switches the popup to that id |
| ReportView.ToLower | src/app/report/page.tsx:683 | lower-casing leaves no upper-case letter, keeps white space and changes nothing else |
| ReportView.LowerCase | src/app/report/page.tsx:683 | `toLowerCase` maps each character, keeping the length |
| ReportView.CollapseSpaces | src/app/report/page.tsx:683 | replacing white-space runs by `-` never lengthens the text |
| ReportView.CelebritySlug | src/app/report/page.tsx:683 | the slug is no longer than the name, has no white space and no upper case, and is empty only for an empty name |
| ReportView.CelebrityImagePath | src/app/report/page.tsx:687 | the image path lies under `/celebrities/` |
| ReportView.CollapseKeepsNoUpper | src/app/report/page.tsx:683 | collapsing white space adds no upper-case letter |
| ReportView.CollapseHasNoSpace | src/app/report/page.tsx:683 | the collapsed text has no white space |
| ReportView.CollapseEmpty | src/app/report/page.tsx:683 | the collapsed text is empty exactly when the input is |
| ReportView.CollapseNoSpace | src/app/report/page.tsx:683 | a text without white space is unchanged |
| ReportView.LowerCaseNoUpper | src/app/report/page.tsx:683 | lower-casing a text without upper case changes nothing |
| ReportView.LowerCaseConcat | src/app/report/page.tsx:683 | lower-casing distributes over concatenation |
| ReportView.CollapseConcat | src/app/report/page.tsx:683 | collapsing splits at a boundary that follows a non-space |
| ReportView.CollapseSpaceRun | src/app/report/page.tsx:683 | a white-space run before a word becomes a single `-` |
| ReportView.CollapseWords | src/app/report/page.tsx:683 | two words separated by a white-space run collapse to the words joined by one `-` |
| ReportView.SlugWords | src/app/report/page.tsx:683 | the slug of two words separated by any white-space run is the two slugs joined by one `-` |
| ReportView.SlugIdempotent | src/app/report/page.tsx:683 | slugging a slug changes nothing |
| ReportView.SlugOfOneWord | src/app/report/page.tsx:683 | a single word's slug is just that word in lower case |
| ReportsApi.IsAdmin | src/app/api/reports/route.ts:123-127 | the admin flag is set only by a successful lookup |
| ReportsApi.QueryFor | src/app/api/reports/route.ts:131-139 | the query is for the caller's id, and it asks for live reports exactly for a non-admin |
| ReportsApi.Matches | src/app/api/reports/route.ts:131-139 | definition: whether a stored report matches the query document, the user id and for non-admins `isDeleted` false or absent; proved about it in `QueryMatchesVisible` and `SafetyFilterRedundant` |
| ReportsApi.NotDeleted | src/app/api/reports/route.ts:156 | definition: the safety filter's test `isDeleted !== true`; proved about it in `SafetyFilterRedundant` and `NonAdminSeesLiveOnly` |
| ReportsApi.Find | src/app/api/reports/route.ts:152 | definition: `find(query).sort({ createdAt: -1 })` as filter then sort; proved about it in `ShownAreExactlyVisible` and `SafetyFilterRedundant` |
| ReportsApi.Filter | src/app/api/reports/route.ts:156 | `filter` keeps only elements of the input that pass the test, and never lengthens |
| ReportsApi.Insert | src/app/api/reports/route.ts:152 | inserting adds exactly one element |
| ReportsApi.SortNewestFirst | src/app/api/reports/route.ts:152 | sorting keeps the length |
| ReportsApi.GetReports | src/app/api/reports/route.ts:103-168 | the handler answers either 200 with a list of reports or 401 `Unauthorized`, nothing else |
| ReportsApiProperties.FilterCount | src/app/api/reports/route.ts:156 | a report is kept by the filter as often as it occurs if it passes, and not at all otherwise |
| ReportsApiProperties.FilterKeepsSorted | src/app/api/reports/route.ts:152-156 | the safety filter preserves the newest-first order |
| ReportsApiProperties.FilterSameTest | src/app/api/reports/route.ts:152-156 | two tests that agree everywhere filter alike |
| ReportsApiProperties.FilterAllPass | src/app/api/reports/route.ts:156 | a filter every element passes changes nothing |
| ReportsApiProperties.InsertPermutes | src/app/api/reports/route.ts:152 | insertion adds exactly the new report to the multiset |
| ReportsApiProperties.InsertSorted | src/app/api/reports/route.ts:152 | insertion into a newest-first list keeps it newest first |
| ReportsApiProperties.SortSortsAndPermutes | src/app/api/reports/route.ts:152 | `sort({ createdAt: -1 })` yields a newest-first permutation of its input |
| ReportsApiProperties.QueryMatchesVisible | src/app/api/reports/route.ts:131-139 | the query matches exactly the caller's reports, restricted for a non-admin to those whose `isDeleted` is false or absent |
| ReportsApiProperties.NoUserUnauthorized | src/app/api/reports/route.ts:110-113 | once the database is reached, a request without a user id is answered 401 `Unauthorized` |
| ReportsApiProperties.FailedLookupIsNonAdmin | src/app/api/reports/route.ts:123-127 | a lookup that is not ok treats the caller exactly as a non-admin |
| ReportsApiProperties.FailuresGiveEmptyList | src/app/api/reports/route.ts:165-168 | an unreachable database, a failing session lookup, a failing identity request or a failing query all yield 200 with an empty list |
| ReportsApiProperties.SafetyFilterRedundant | src/app/api/reports/route.ts:133-139 | the non-admin query already drops every report flagged deleted, so the safety filter removes nothing |
| ReportsApiProperties.ShownAreExactlyVisible | src/app/api/reports/route.ts:131-164 | a successful response lists exactly the reports visible to the caller, newest first, each as often as stored |
| ReportsApiProperties.ShownBelongToCaller | src/app/api/reports/route.ts:131-139 | every report returned belongs to the caller, for admins and non-admins alike |
| ReportsApiProperties.NonAdminSeesLiveOnly | src/app/api/reports/route.ts:133-139 | a non-admin sees one of their reports exactly when it is not flagged deleted |
| ReportsApiProperties.AdminSeesAllOwn | src/app/api/reports/route.ts:131-132 | an admin sees every report of theirs, deleted ones included |
| Gemini.ParseDataUrl | src/lib/gemini.ts:24-27 | the upload is refused as an invalid data URL exactly when it has no comma |
| Gemini.PromptAge | src/lib/gemini.ts:37 | the age is `35` when it is `Prefer not to say`, missing or empty, and the given age otherwise |
| Gemini.PromptStyle | src/lib/gemini.ts:41 | the style is the given one, or `Daily` when it is missing or empty |
| Gemini.Prompt | src/lib/gemini.ts:43-94 | definition: the prompt with the age and style each inserted twice; proved about it in `PromptMentionsAgeAndStyle` |
| Gemini.BuildRequest | src/lib/gemini.ts:24-99 | definition: the parsed image and the prompt sent to the model, or the message of the error thrown while building them; proved about it in `ModelSeesParsedRequest` and `AnalyzeFaceOutcomes` |
| Gemini.WrapError | src/lib/gemini.ts:106-111 | every rethrown message starts with `Failed to analyze image: ` |
| Gemini.AnalyzeFace | src/lib/gemini.ts:19-112 | every failure of `analyzeFace` carries a message starting with `Failed to analyze image: ` |
| GeminiProperties.MimeOfHead | src/lib/gemini.ts:29 | for a first part `scheme:mime` followed by `;` parameters without a further `:`, the MIME type is the text after the first `:` up to the next `;` |
| GeminiProperties.MimeStopsAtColon | src/lib/gemini.ts:29 | a second `:` also ends the MIME type, so `data:image:png;base64,…` gives `image` |
| GeminiProperties.CommaParts | src/lib/gemini.ts:24-30 | the first two comma parts of `head,data…` are `head` and `data` |
| GeminiProperties.DataUrlParsed | src/lib/gemini.ts:24-30 | a data URL of the usual shape parses to its MIME type and its payload |
| GeminiProperties.DataIsSecondPart | src/lib/gemini.ts:30 | the payload is exactly the second comma part; later parts are dropped |
| GeminiProperties.NoColonIsTypeError | src/lib/gemini.ts:29 | without a `:` in the first part, reading the MIME type throws the `TypeError` of splitting `undefined` |
| GeminiProperties.PromptMentionsAgeAndStyle | src/lib/gemini.ts:43-94 | the prompt contains the age and the style, each in its phrase |
| GeminiProperties.ModelSeesParsedRequest | src/lib/gemini.ts:96-99 | a well-formed upload is sent to the model as its parsed image and the prompt built from the defaults |
| GeminiProperties.AnalyzeFaceOutcomes | src/lib/gemini.ts:19-112 | the reply text is returned unchanged; a comma-free upload, an `Error` thrown by the model and any other thrown value each give their wrapped message |
| SelfiePage.RestOfLine | src/app/upload-image/selfie/SelfiePageClient.tsx:94 | what `.+` can reach never exceeds the text |
| SelfiePage.ExtractImagePrompt | src/app/upload-image/selfie/SelfiePageClient.tsx:94-95 | an extracted prompt is trimmed |
| SelfiePage.CaptureAfterFirst | src/app/upload-image/selfie/SelfiePageClient.tsx:94-95 | the capture after the first marker is trimmed |
| SelfiePage.CaptureAfterMarker | src/app/upload-image/selfie/SelfiePageClient.tsx:94-95 | the capture of `\s*(.+)` is trimmed |
| SelfiePage.ErrorMessage | src/app/upload-image/selfie/SelfiePageClient.tsx:123 | the error page always gets a non-empty message: the error's own when present, `Unknown error` otherwise |
| SelfiePage.PromptAccepted | src/app/upload-image/selfie/SelfiePageClient.tsx:97 | definition: `imagePrompt` non-empty and at least ten characters long; proved about it in `AcceptedPromptShape`, `OnlySpaceAfterMarkerRefused` and `RefusedPromptShowsError` |
| SelfiePage.LoadingRoute | src/app/upload-image/selfie/SelfiePageClient.tsx:66-72 | definition: the loading page with `age \|\| ''`, `style \|\| ''` and `/report` to return to; proved about it in `LoadingPageFirst` and `AdmittedHasAgeAndStyle` |
| SelfiePage.ContinueOutcome | src/app/upload-image/selfie/SelfiePageClient.tsx:58-125 | definition: the routes pushed, the report stored and the loading flag after one press of Continue; proved about it in `NoPhotoNoEffect`, `LoadingPageFirst`, `StoredOnlyAfterBothSucceed`, `RefusedPromptShowsError` and `FailedAnalysisShowsError`, and what `Continue` does |
| SelfiePage.AnalysisOutcome | src/app/upload-image/selfie/SelfiePageClient.tsx:74-124 | definition: the effect after the analysis request answers, the error page for a throw or a response that is not ok, otherwise the prompt step; what `HandleAnalysis` does |
| SelfiePage.PromptOutcome | src/app/upload-image/selfie/SelfiePageClient.tsx:94-119 | definition: the fixed error page for a refused prompt, which keeps the loading flag, otherwise the image step; proved about it in `RefusedPromptShowsError` |
| SelfiePage.ImageOutcome | src/app/upload-image/selfie/SelfiePageClient.tsx:102-124 | definition: the error page for a throw or a response that is not ok, otherwise both values stored and `/report`; what `HandleImage` does |
| SelfiePage.GateRedirects | src/app/upload-image/selfie/SelfiePageClient.tsx:23-27 | definition: the entry gate, no skip flag and a falsy age or style cookie; proved about it in `AdmittedHasAgeAndStyle` and `AdminNeverRedirected`, and what `Mount` does |
| SelfiePage.SelfiePageState.constructor | src/app/upload-image/selfie/SelfiePageClient.tsx:13-18 | the page state starts with no age, style, image or file, and not loading |
| SelfiePage.SelfiePageState.Mount | src/app/upload-image/selfie/SelfiePageClient.tsx:22-42 | the page goes to `/age` exactly when the skip flag is not set and the age or style cookie is missing, and then sets nothing; otherwise age and style are set only from cookies that are present |
| SelfiePage.SelfiePageState.SelectFile | src/app/upload-image/selfie/SelfiePageClient.tsx:48-55 | without a file nothing happens; otherwise the file is recorded |
| SelfiePage.SelfiePageState.FileLoaded | src/app/upload-image/selfie/SelfiePageClient.tsx:53 | the loaded data URL becomes the image |
| SelfiePage.SelfiePageState.Continue | src/app/upload-image/selfie/SelfiePageClient.tsx:58-125 | the routes pushed, the localStorage writes and the loading flag are those `ContinueOutcome` gives; nothing else changes |
| SelfiePage.SelfiePageState.Analyze | src/app/upload-image/selfie/SelfiePageClient.tsx:64-124 | with a photo, the loading page is pushed first and the rest is what `AnalysisOutcome` gives |
| SelfiePage.SelfiePageState.HandleAnalysis | src/app/upload-image/selfie/SelfiePageClient.tsx:74-124 | the `try` block after the analysis request does what `AnalysisOutcome` gives |
| SelfiePage.SelfiePageState.HandleImage | src/app/upload-image/selfie/SelfiePageClient.tsx:102-124 | the rest of the `try` block does what `ImageOutcome` gives |
| SelfiePage.SelfiePageState.GoBack | src/app/upload-image/selfie/SelfiePageClient.tsx:139-146 | back clears the image and the file when an image is shown, and otherwise navigates back |
| SelfiePageProperties.RestOfLineOf | src/app/upload-image/selfie/SelfiePageClient.tsx:94 | `.+` takes a line up to its first terminator |
| SelfiePageProperties.NoMarkerNoPrompt | src/app/upload-image/selfie/SelfiePageClient.tsx:94-95 | without the marker there is no prompt |
| SelfiePageProperties.CaptureAtFirst | src/app/upload-image/selfie/SelfiePageClient.tsx:94 | the capture is taken from the text after the first marker |
| SelfiePageProperties.CaptureOfLine | src/app/upload-image/selfie/SelfiePageClient.tsx:94-95 | after white space, the capture is the trimmed rest of the line |
| SelfiePageProperties.CaptureOfSpaces | src/app/upload-image/selfie/SelfiePageClient.tsx:94-95 | white space alone gives no match when it is all line terminators, and an empty capture otherwise |
| SelfiePageProperties.PromptIsRestOfLine | src/app/upload-image/selfie/SelfiePageClient.tsx:94-95 | the prompt is the rest of the line after the first `**Image Prompt:**` and any white space, trimmed |
| SelfiePageProperties.OnlySpaceAfterMarkerRefused | src/app/upload-image/selfie/SelfiePageClient.tsx:94-97 | white space alone after the marker yields no prompt or an empty one |
| SelfiePageProperties.AcceptedPromptShape | src/app/upload-image/selfie/SelfiePageClient.tsx:95-97 | an accepted prompt is trimmed and at least ten characters long |
| SelfiePageProperties.NoPhotoNoEffect | src/app/upload-image/selfie/SelfiePageClient.tsx:59-62 | Continue without a photo pushes nothing, stores nothing and keeps the loading flag |
| SelfiePageProperties.LoadingPageFirst | src/app/upload-image/selfie/SelfiePageClient.tsx:64-72 | with a photo, the loading page comes first, with the age and style (empty when unset) and `/report` to return to, then exactly one more route |
| SelfiePageProperties.StoredOnlyAfterBothSucceed | src/app/upload-image/selfie/SelfiePageClient.tsx:85-119 | `reportResult` and `generatedImageUrl` are written exactly when both services succeed and the prompt is accepted; they are the analysis text and the image URL, and `/report` follows |
| SelfiePageProperties.RefusedPromptShowsError | src/app/upload-image/selfie/SelfiePageClient.tsx:97-99 | a refused prompt leads to the fixed error page, stores nothing and leaves the loading flag set |
| SelfiePageProperties.FailedAnalysisShowsError | src/app/upload-image/selfie/SelfiePageClient.tsx:85-88 | a failing analysis request shows its message on the error page, clears the loading flag and stores nothing |
| SelfiePageProperties.AdmittedHasAgeAndStyle | src/app/upload-image/selfie/SelfiePageClient.tsx:27-41 | a visitor admitted without the skip flag has both cookies, and both values reach the loading page |
| SelfiePageProperties.AdminNeverRedirected | src/app/upload-image/selfie/SelfiePageClient.tsx:23-27 | with the skip flag set the gate never redirects |
| StylePage.Enter | src/app/style/page.tsx:25-37 | entry goes to `/age` exactly when the skip flag is not set and there is no age cookie; the clean-up removes the stale cookie and keys in either case and nothing else |
| StylePage.EntryRedirects | src/app/style/page.tsx:26-29 | definition: the entry guard, no skip flag and a falsy `userAge` cookie; proved about it in `EntryGuard`, and what `Enter` does |
| StylePage.ChooseStyle | src/app/style/page.tsx:39-42 | choosing a style sets `preferredStyle` to it and goes to the selfie step; nothing else changes |
| StylePageProperties.StyleOptionsDistinct | src/app/style/page.tsx:12-19 | six distinct styles are offered, `Daily` among them |
| StylePageProperties.CleanupKeepsOtherKeys | src/app/style/page.tsx:33-36 | the clean-up keeps every other cookie and key, `userAge` among them |
| StylePageProperties.CleanupRemovesStaleKeys | src/app/style/page.tsx:33-36 | the clean-up leaves none of the stale cookie and keys |
| StylePageProperties.ChosenStyleStored | src/app/style/page.tsx:40 | the stored style is exactly the chosen one, and the age cookie is untouched |
| StylePageProperties.EntryGuard | src/app/style/page.tsx:26-31 | an admin or a visitor with a non-empty age cookie stays; a visitor with neither, including one whose age cookie is empty, is sent to `/age` |
| HomePage.MainButtonRoute | src/app/page.tsx:39-47 | signed out goes to `/please-login` whatever the flag; a signed-in admin to `/admin`; anyone else to `/age` |
| HomePage.ButtonLabel | src/app/page.tsx:63 | the label is `Dashboard` exactly for an admin |
| HomePage.AdminConfirmed | src/app/page.tsx:20-26 | definition: authentication loaded, signed in and a reply saying admin; proved about it in `NothingBeforeLoaded` and `ConfirmedAdminSkipsOnboarding`, and what `CheckAuth` sets the flags on |
| Browser.SkipsOnboarding | src/app/style/page.tsx:26 | definition: `skipAdminRedirect` is stored as exactly `true`, read the same way by the selfie step; proved about it in `ConfirmedAdminSkipsOnboarding`, `EntryGuard` and `AdminNeverRedirected` |
| HomePage.HomePageState.constructor | src/app/page.tsx:16 | the admin flag starts false |
| HomePage.HomePageState.CheckAuth | src/app/page.tsx:18-37 | nothing happens before authentication has loaded; the skip flag is set, and the admin flag becomes true, only when a signed-in user's check replies admin; the flag is never cleared |
| HomePage.HomePageState.ClickMainButton | src/app/page.tsx:39-47 | the main button pushes the route `MainButtonRoute` gives and changes nothing else |
| HomePageProperties.NothingBeforeLoaded | src/app/page.tsx:20 | before authentication has loaded no admin is confirmed |
| HomePageProperties.SignedOutGoesToLogin | src/app/page.tsx:40-41 | a signed-out visitor goes to the login page whatever the admin flag |
| HomePageProperties.ConfirmedAdminSkipsOnboarding | src/app/page.tsx:26-28 | a confirmed admin leaves the skip flag the onboarding pages read, and then sees `Dashboard` and goes to `/admin` |

## Left out

- I/O, network and services are not modelled as behaviour. Their answers, or the services as functions, are inputs:
  - the LLM call (`getGenerativeModel` and `generateContent`), which is a single `model` function parameter of `Gemini.AnalyzeFace`;
  - the identity-provider request, which is the `Lookup` input of `ReportsApi.GetReports`;
  - the database connection and queries, which are the `Database` input;
  - the `fetch` calls of the selfie page, which are `PromptService` and `ImageService`.
- The module-load check for a missing API key in `src/lib/gemini.ts` happens before `analyzeFace` exists: it is not modelled.
- The report page's PDF export, its auto-save request and the popup's click-outside listener are not modelled. They are DOM or network code.
- The debug query of all a user's reports in the reports handler is folded into `queriesFail`. That query only feeds the log, and it matters only when it throws.
- Console logging is not modelled.
- Cookie expiry is not modelled.
- Query strings are kept structured: the loading route's fields and the error page's message are not URL-encoded text.
- The selfie page's file reader is asynchronous. `SelectFile` and `FileLoaded` are separate events, and their order and interleaving with other handlers are not modelled.
- The React state updates inside `handleContinue` appear at once: a re-render between awaits is not modelled.
- The selfie page reads a missing `result` field of the analysis reply to `undefined` and then throws. The model's `Fetched.Ok` always carries a string.
- `Strings.IsSpace`, `Strings.Trim`, `SelfiePage.CaptureAfterMarker`: only ASCII white space (space, tab, line feed, vertical tab, form feed, carriage return) is white space. JavaScript's `trim` and `\s` also include Unicode spaces.
- `SelfiePage.RestOfLine`: only line feed and carriage return end a line. The other JavaScript line terminators (U+2028, U+2029) are left out.
- `ReportView.ToLower`: only ASCII letters are lower-cased. JavaScript's `toLowerCase` covers all of Unicode.
- String lengths count Dafny characters, not UTF-16 code units.
- Report ids, the sort under equal timestamps, and `ReportsApi.SortNewestFirst`:
  - the database's sort is modelled as a stable insertion sort;
  - for ties, only "newest first and a permutation" is claimed;
  - the database's order among reports with equal `createdAt` is not promised.
- `ReportsApi.Report`: the field `isDeleted` is `Option<bool>`, where `None` stands for a missing field. A stored database `null` is not modelled separately.
- `Gemini.Prompt`: the literal prompt text is reduced to constant pieces around the age and style insertions. What is proved is where the age and style occur, not the wording.
- `HomePage.AdminCheck`: the reply's `isAdmin` field is taken as a boolean. JavaScript truthiness of other JSON values is not modelled.
- `ReportParser.MatchMarker`: the `else if` chain is written as a scan over the list of markers, in test order. `ReportParser.MatchMarkerIsFirst` proves it equal to the chain's meaning.
- `SelfiePageProperties.OnlySpaceAfterMarkerRefused`: does not itself state that the prompt is refused. It gives the extraction result (None or `""`), and `PromptAccepted` refuses both by definition.
