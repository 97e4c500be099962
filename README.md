# SpotCheck loan portal — a Dafny model

SpotCheck is a small SME loan portal with two roles:

- An **applicant** signs in and runs a two-step wizard:
  - Step one takes a business profile and checks it against a fixed rule table (turnover bounds, minimum years of trading, amount not above turnover, banned sectors). It classifies the business as a Micro, Small or Medium enterprise.
  - Step two is a document checklist. Each upload passes through a simulated scanning → analysing → verified pipeline. Submission waits until the nine required documents are verified.
- The applicant's home page lists their own web applications and the archived **legacy opportunities**. Each opportunity is marked Eligible, Ineligible or NA against the newest profile, and the list can be filtered and sorted by that verdict.
- **Bank staff** sign in to a dashboard. It shows KPI cards, a status chart and a sector-demand chart, and lets staff approve or reject applications that are under review.
- A keyword help bot (**SpotBot**) answers questions from a fixed knowledge base.
- An Express/SQLite **server** seeds 20 legacy records and serves three operations: submit, list (newest first) and set status.

The model has one module per part of the system:

- `ApplicationStore` (store.dfy): the server's table as a class `Store` over a sequence of rows. It covers the UNIQUE refId column, AUTOINCREMENT ids, seeding, submit, newest-first listing and status update.
- `Eligibility` (eligibility.dfy): `handleCheckEligibility`'s decision, as a pure function. It is proved equal to an independent "first violated check of an ordered list" reference.
- `LegacyMatch` (legacy.dfy): the legacy verdict, the filter, and the sort. The sort is an in-place stable sort on an array, proved equal to a stable partition.
- `Documents` (documents.dfy): the document checklist, the required ids, the upload stages and the completeness gate.
- `Portal` (portal.dfy): the applicant page's state as a class. It covers the eligibility step, uploads, both submit handlers, data fetch, new application and "apply now".
- `AdminDashboard` (dashboard.dfy): the KPI figures, both charts, the optimistic status update and the row actions.
- `SpotBot` (spotbot.dfy): the knowledge base, the reply function and the chat widget's state.
- `Login` (login.dfy): the credential decision and the sign-in form.
- `Text` (text.dfy): the JavaScript `trim`, ASCII `toLowerCase` and `includes`.
- `Wrappers` (wrappers.dfy): `Option` and `Result`.

Four behaviours of the code are easy to miss, and the model keeps each of them as written:

- **No status-transition guard.** The status route (server/index.js:160-166) runs its UPDATE for whatever status and refId it is sent. Nothing stops a decided application from being revoked or decided again (`ApplicationStore.NoTransitionGuard`). Only the user interface limits the buttons: approve and reject appear for rows under review (client/src/components/Dashboard.jsx:278-284), and so does revoke.
- **Zero years of trading.** The years check (client/src/App.jsx:285) tests the field's truthiness first. A form prefilled from a newest application with `yearsTrading` 0 (client/src/App.jsx:181) is therefore refused with "Years Trading cannot be negative", because the number 0 is falsy. A typed "0" is a non-empty string and passes that check (`Eligibility.StoredZeroYearsReportedNegative`).
- **Check order.** The amount-above-turnover rule (client/src/App.jsx:294) is tested after the turnover and years rules (client/src/App.jsx:291-293), so it is reported only when those pass (`Eligibility.AmountRuleComesAfterTurnoverRules`).
- **Reference numbers.** A refId is `APP-` plus four random digits (server/index.js:116). A collision is not retried: the insert fails with the UNIQUE-constraint error and the submission is lost (server/index.js:137-139, `ApplicationStore.Store.Submit`).

## Model

| member | source | states |
|---|---|---|
| Login.Authenticate | client/src/components/Login.jsx:22-32 | The staff tab accepts exactly admin/admin123 and otherwise refuses with "Invalid Bank Staff credentials". The applicant tab accepts exactly a non-empty username and password and otherwise refuses with "Please enter username and password". A session is Admin exactly when the staff tab was used. The staff pair is non-empty, so it also opens a user session on the applicant tab. |
| Login.LoginForm.constructor | client/src/components/Login.jsx:12-15 | The form starts with empty boxes, no error, on the applicant tab. |
| Login.LoginForm.SetRole | client/src/components/Login.jsx:86-93 | A tab click changes the role only. |
| Login.LoginForm.SetUsername | client/src/components/Login.jsx:110 | Typing replaces the username only. |
| Login.LoginForm.SetPassword | client/src/components/Login.jsx:123 | Typing replaces the password only. |
| Login.LoginForm.HandleLogin | client/src/components/Login.jsx:22-32 | On acceptance it hands over the session and leaves the error text. On refusal it hands over nothing and shows that refusal's message. |
| ApplicationStore.SeedRow | server/index.js:84-101 | A legacy record becomes an Archived row from source Legacy, carrying the record's id as refId, its industry as sector, its amount, and placeholder 0 turnover and years. |
| ApplicationStore.SeedRows | server/index.js:84-101 | Seeding yields one row per record, in record order, with consecutive ids. |
| ApplicationStore.SerialsMakeIdsDistinct | server/index.js:57-78 | Records whose ids carry consecutive serial numbers have pairwise distinct ids. |
| ApplicationStore.LegacyCsvIdsDistinct | server/index.js:57-78 | The 20 seed ids are numbered 1 to 20, so they are pairwise distinct and seeding never trips the UNIQUE refId column. |
| ApplicationStore.RefNumber | server/index.js:116 | `floor(1000 + r * 9000)` lies in 1000..9999 for every draw r in [0, 1). |
| ApplicationStore.FourDigitsRoundTrip | server/index.js:116 | The four digits written for n read back as n. |
| ApplicationStore.RefIdFor | server/index.js:116 | A generated refId is "APP-" followed by four decimal digits whose value is in 1000..9999. |
| ApplicationStore.SubmittedRow | server/index.js:114-136 | A submitted row is Under Review, from source Web, dated with the given day, carrying the posted profile and file list. Its loan type is the posted one, or "Working Capital" when that is missing or empty. |
| ApplicationStore.SetStatus | server/index.js:163-169 | The update keeps the length. It sets the status of exactly the rows with the given refId and leaves every other row unchanged. |
| ApplicationStore.SetStatusUnknownRefId | server/index.js:163-169 | An update naming an unknown refId changes nothing. |
| ApplicationStore.NoTransitionGuard | server/index.js:163-169 | An Approved row can still be set to Revoked: the server has no terminal states. |
| ApplicationStore.ReverseAt | server/index.js:151 | Position k of the newest-first list is row |s|-1-k of the table. |
| ApplicationStore.ReverseMultiset | server/index.js:151 | The newest-first list holds exactly the table's rows. |
| ApplicationStore.Store.constructor | server/index.js:33-49 | The table starts empty, and its first id is 1. |
| ApplicationStore.Store.Insert | server/index.js:33-49 | An insert whose refId is taken fails with the UNIQUE-constraint error and changes nothing. Otherwise it appends the row under the next id and advances the counter. Ids stay increasing and refIds unique. |
| ApplicationStore.Store.SeedIfEmpty | server/index.js:52-105 | An empty table receives the 20 legacy rows in order. A non-empty table is left alone. |
| ApplicationStore.Store.SeedRecords | server/index.js:84-101 | Inserting records with distinct ids into an empty table yields exactly their seed rows. |
| ApplicationStore.Store.Submit | server/index.js:114-142 | A submission either appends the submitted row and returns its refId, or fails with the UNIQUE error when the drawn refId is taken, leaving the table unchanged. |
| ApplicationStore.Store.List | server/index.js:150-155 | The list is the table newest first: the same rows, with strictly decreasing ids. |
| ApplicationStore.Store.UpdateStatus | server/index.js:163-169 | The table after an update is `SetStatus` of the table before it. The id counter does not change. |
| Eligibility.TierOf | client/src/App.jsx:297-299 | Micro up to 10 crore, Small above that up to 100 crore, Medium above 100 crore, each as an if-and-only-if. |
| Eligibility.FirstViolationSpec | client/src/App.jsx:282-295 | The reference reports nothing exactly when no listed check is violated. Otherwise it reports the reason of the first violated check. |
| Eligibility.EvaluateIsFirstViolation | client/src/App.jsx:279-302 | The handler's decision equals the reference over the nine checks in source order. It succeeds with the turnover's tier when no check is violated, and otherwise fails with the first violated check's reason. |
| Eligibility.BusinessRulesInOrder | client/src/App.jsx:291-295 | Once the four input checks pass, the decision is the first failure among the five business rules, in their order. |
| Eligibility.ReasonsDistinguishChecks | client/src/App.jsx:282-295 | Different checks report different reasons. |
| Eligibility.ReportsFirstViolatedCheck | client/src/App.jsx:282-295 | The handler reports check k's reason if and only if check k is violated and no earlier check is. |
| Eligibility.SuccessIffNoViolation | client/src/App.jsx:279-302 | The check succeeds if and only if none of the nine checks is violated, and then yields the turnover's tier. |
| Eligibility.BelowMinimumTurnoverRefused | client/src/App.jsx:291 | Valid inputs with a turnover below the minimum are refused with that turnover in the reason. |
| Eligibility.AmountRuleComesAfterTurnoverRules | client/src/App.jsx:291-294 | An amount above a too-small turnover is reported as the turnover failure, not the amount failure. |
| Eligibility.StoredZeroYearsReportedNegative | client/src/App.jsx:285 | A stored 0 years is refused as negative, while a typed 0 is not. |
| Eligibility.RetailScenario | client/src/App.jsx:291-299 | Turnover 42 lakh, 3 years, amount 10 lakh, Retail: accepted as Micro Enterprise under any rule table that admits those values. |
| Eligibility.BannedSectorScenario | client/src/App.jsx:295 | The same profile in a banned sector is refused naming the sector. |
| LegacyMatch.VerdictOf | client/src/App.jsx:203-208 | NA exactly when there is no profile. Otherwise Eligible exactly when the profile's turnover (0 when empty) is at least the opportunity's amount (0 when empty). |
| LegacyMatch.CompareIsRankOrder | client/src/App.jsx:215-222 | With a favoured verdict, the comparator is the sign of the difference of the two ranks (favoured first). |
| LegacyMatch.SelectMembers | client/src/App.jsx:212-213 | Every kept opportunity is from the input and has the filtered verdict. |
| LegacyMatch.SelectIsSubsequence | client/src/App.jsx:212-213 | Filtering keeps the input order. |
| LegacyMatch.FilterKeepsExactlyVerdict | client/src/App.jsx:210-213 | The Eligible and Ineligible filters keep exactly the opportunities with that verdict, in input order. |
| LegacyMatch.NoProfileFiltersEverythingOut | client/src/App.jsx:204 | Without a profile, both verdict filters show nothing. |
| LegacyMatch.PartitionIsPermutation | client/src/App.jsx:215-222 | Sorting by verdict neither loses nor adds an opportunity. |
| LegacyMatch.PartitionFavouredFirst | client/src/App.jsx:215-222 | After sorting, every favoured opportunity comes before every other one. |
| LegacyMatch.PartitionIsStable | client/src/App.jsx:215-222 | Within each group the sort keeps the input order. |
| LegacyMatch.View | client/src/App.jsx:210-224 | With filter All and no sort, the list is shown as fetched. |
| LegacyMatch.SortByVerdict | client/src/App.jsx:215-222 | The in-place sort leaves the array holding the stable favoured-first partition of its old contents. |
| LegacyMatch.GetFilteredLegacyData | client/src/App.jsx:210-224 | The data shown is the filtered list, sorted by the chosen verdict when a sort is chosen. |
| Documents.RequiredIdsMembers | client/src/App.jsx:254 | An id is required exactly when some checklist item with that id is marked required. |
| Documents.RequiredDocIdsAreNine | client/src/App.jsx:25-55 | The required ids are the nine KYC, income and registration documents in checklist order. The CIN and the list of directors are optional. |
| Documents.VerifiedEntry | client/src/App.jsx:250 | The last stage of an upload is verified. |
| Documents.AllVerifiedIff | client/src/App.jsx:255 | The left-to-right `every` holds exactly when each listed id is verified. |
| Documents.GateIff | client/src/App.jsx:254-255 | The gate is open exactly when each of the nine required documents is verified. |
| Documents.OptionalDocsIrrelevant | client/src/App.jsx:254-255 | Any change to a document that is not required leaves the gate as it was. |
| Documents.ReuploadClosesGate | client/src/App.jsx:246-255 | A required document in scanning or analysing closes the gate. |
| Documents.UploadLifecycle | client/src/App.jsx:246-252 | The three stages leave the document verified and every other entry unchanged. |
| Documents.FinishingLastDocOpensGate | client/src/App.jsx:246-255 | Verifying the last missing required document opens the gate. |
| Documents.EmptyUploadsClosed | client/src/App.jsx:255 | With nothing uploaded the gate is closed. |
| Portal.StoredField | client/src/App.jsx:181 | A prefilled field is blank exactly when the stored column is null. Otherwise it holds the stored number. |
| Portal.PrefilledFormNeedsAmount | client/src/App.jsx:179-185 | A freshly opened form never passes the check. With a named company and a positive turnover, it fails precisely on the missing amount. |
| Portal.ColumnOf | server/index.js:124-129 | A field holding a number is stored as that number. A blank field is a null column. This is exact for a blank that came from a stored null and is posted back (client/src/App.jsx:266-269). |
| Portal.StoredFieldRoundTrip | client/src/App.jsx:266-270 | A column read from the table and posted back arrives unchanged. |
| Portal.LegacyPayload | client/src/App.jsx:266-271 | A legacy application stores the opportunity's amount with the latest profile's company, turnover, years and sector. |
| Portal.KeyOrder | client/src/App.jsx:247 | After an upload, the key list holds the document and exactly the keys it held before. A key already present keeps the order unchanged. A new key is appended at the end. |
| Portal.FromSource | client/src/App.jsx:165-168 | The source filter keeps only rows of that source. |
| Portal.FromSourceMembers | client/src/App.jsx:165-168 | A row is kept exactly when it is in the list and has that source. |
| Portal.FirstOfSourceIsNewest | client/src/App.jsx:167 | In a newest-first list, the first row of a source has the highest id of that source. |
| Portal.LatestProfileIsNewestWebRow | client/src/App.jsx:160-172 | Given the server's list, the latest profile is the Web application with the highest id. |
| Portal.RevokeWithdrawsOffer | client/src/App.jsx:234-242 | After a revoke, the row is Revoked and no longer offers the button, and rows with other refIds are unchanged. |
| Portal.Portal.constructor | client/src/App.jsx:140-158 | The page starts on step 1 with an empty form, loan type "Working Capital", no uploads, no profile and no lists. |
| Portal.Portal.TypeCompanyName | client/src/App.jsx:445 | Typing in the company box replaces the company name and keeps the other fields. |
| Portal.Portal.TypeTurnover | client/src/App.jsx:455 | Typing in the turnover box replaces the turnover and keeps the other fields. |
| Portal.Portal.TypeAmountRequested | client/src/App.jsx:467 | Typing in the amount box replaces the amount and keeps the other fields. |
| Portal.Portal.TypeYearsTrading | client/src/App.jsx:481 | Typing in the years box replaces the years and keeps the other fields. |
| Portal.Portal.ChooseSector | client/src/App.jsx:487-492 | Choosing one of the four sector options replaces the sector and keeps the other fields. |
| Portal.Portal.CheckEligibility | client/src/App.jsx:279-302 | A refusal shows its reason, clears the tier and stays on the step. A pass clears the error, shows the tier and moves to step 2. |
| Portal.Portal.HandleFileUpload | client/src/App.jsx:246-247 | Starting an upload marks that document scanning and leaves the other entries. |
| Portal.Portal.ScanFinished | client/src/App.jsx:248-249 | The first timer moves that document to analysing. |
| Portal.Portal.AnalysisFinished | client/src/App.jsx:250 | The second timer marks that document verified. |
| Portal.Portal.WizardSubmit | client/src/App.jsx:257-264 | A payload is posted exactly when the gate is open. It carries the form, the uploaded document keys (every required one among them) and the loan type. |
| Portal.Portal.LegacySubmit | client/src/App.jsx:266-277 | A payload is posted exactly when the gate is open, an opportunity is selected and a profile exists. It carries the legacy payload and every required document. |
| Portal.Portal.FetchAllData | client/src/App.jsx:160-172 | The page keeps the Web rows and the Legacy rows. The latest profile becomes the first Web row when there is one, and otherwise stays as it was. |
| Portal.Portal.StartNewApplication | client/src/App.jsx:179-185 | A new application has the chosen loan type, a form prefilled from the latest profile, step 1, no uploads and no tier. |
| Portal.Portal.ApplyNow | client/src/App.jsx:227-230 | Without a profile, the page is locked and nothing changes. Otherwise the opportunity is selected and the uploads are cleared. |
| AdminDashboard.CountStatus | client/src/components/Dashboard.jsx:108-111 | The count for a status is its multiplicity in the status column, so at most the number of applications. |
| AdminDashboard.CalculateStats | client/src/components/Dashboard.jsx:95-100 | The total is the number of applications. The pending count is how many applications are Under Review, so it never exceeds the total. |
| AdminDashboard.PositiveMembers | client/src/components/Dashboard.jsx:113-118 | The chart filter keeps exactly the entries with a positive value. |
| AdminDashboard.StatusChartSpec | client/src/components/Dashboard.jsx:113-118 | The status chart holds exactly the non-zero slices, in Approved, Rejected, Review, Revoked order. |
| AdminDashboard.ChartedNames | client/src/components/Dashboard.jsx:113-118 | Only the four status labels are charted. Archived rows never get a slice. |
| AdminDashboard.ChartedStatuses | client/src/components/Dashboard.jsx:113-118 | Each of the four statuses is charted, with its count, exactly when it occurs. |
| AdminDashboard.SlicesWithinTotal | client/src/components/Dashboard.jsx:108-118 | The four slices together never exceed the number of applications. |
| AdminDashboard.SectorKey | client/src/components/Dashboard.jsx:121 | A row is grouped under a non-empty key: its sector, or "Unknown". |
| AdminDashboard.AddTo | client/src/components/Dashboard.jsx:120-124 | Adding to a key grows the accumulator by at most that key. |
| AdminDashboard.AddToSpec | client/src/components/Dashboard.jsx:120-124 | Adding v under a key adds v to the grand total and to that key's total. It adds the key if it was new and touches no other key. Keys stay distinct. |
| AdminDashboard.SectorTotalsSpec | client/src/components/Dashboard.jsx:120-129 | The sector chart has one entry per distinct sector key occurring in the data. Each total is the sum of that sector's amounts, and the totals add up to the total requested value. |
| AdminDashboard.SectorTotalsMatchValue | client/src/components/Dashboard.jsx:95-124 | The sector totals add up to the value KPI card. |
| AdminDashboard.PrepareCharts | client/src/components/Dashboard.jsx:107-132 | The one-pass loop produces the status chart and the sector totals. |
| AdminDashboard.ActionFor | client/src/components/Dashboard.jsx:278-284 | Approve and reject are offered exactly for rows under review. |
| AdminDashboard.StatusUpdateKeepsTotals | client/src/components/Dashboard.jsx:138-147 | A status change keeps the number of applications and the total requested value. |
| AdminDashboard.OptimisticMatchesRefetch | client/src/components/Dashboard.jsx:139 | The optimistic update of the shown list equals what the next fetch returns after the server's update. |
| AdminDashboard.Dashboard.constructor | client/src/components/Dashboard.jsx:64-67 | The dashboard starts loading, with no rows, zero figures and empty charts. |
| AdminDashboard.Dashboard.FetchApplications | client/src/components/Dashboard.jsx:73-85 | A successful fetch shows the rows with their figures and both charts. A failed fetch keeps what was shown. Either way, loading ends. |
| AdminDashboard.Dashboard.HandleStatusUpdate | client/src/components/Dashboard.jsx:138-147 | The shown rows become the optimistic update for that refId. |
| SpotBot.AnyKeywordIff | client/src/components/SpotBot.jsx:121-123 | An entry matches exactly when one of its keywords occurs in the lowered input. |
| SpotBot.FindFrom | client/src/components/SpotBot.jsx:121-123 | The search returns the first matching entry from the start position, or reports that none matches. |
| SpotBot.Respond | client/src/components/SpotBot.jsx:111-135 | With no matching entry, the reply is the fallback. Otherwise it is the answer and options of the first matching entry. |
| SpotBot.CaseInsensitive | client/src/components/SpotBot.jsx:114 | The reply does not depend on letter case. |
| SpotBot.FallbackIffNoMatch | client/src/components/SpotBot.jsx:115-130 | When no entry's reply is the fallback text, the fallback is given exactly when nothing matches. |
| SpotBot.ExcludedNoMatch | client/src/components/SpotBot.jsx:121-123 | An input none of whose keywords can occur in it (a keyword letter the input lacks, or a tabled mismatch at every offset) matches nothing. |
| SpotBot.ChipReaches | client/src/components/SpotBot.jsx:121-130 | When the entries before position k all miss and entry k matches, the reply is entry k's answer and options. |
| SpotBot.SectionChipsLoopBack | client/src/components/SpotBot.jsx:38-61 | As written, each of the six chips "KYC Documents", "Income Proofs", "Business Proofs", "File Formats", "Check Income Proofs" and "Check Business Proofs" answers with the documents menu again. Each of them would match its own section entry. |
| SpotBot.MoveBackIsPermutation | client/src/components/SpotBot.jsx:12-78 | Moving one entry later keeps every entry. |
| SpotBot.SectionsFirstIsPermutation | client/src/components/SpotBot.jsx:12-78 | The reordered knowledge base holds exactly the same entries. |
| SpotBot.SectionChipsReachSections | client/src/components/SpotBot.jsx:38-61 | With the documents entry placed after the four section entries (KYC, income, business and file formats), each of the six chips answers with its own section. "Required Documents" and "Back to Documents" still reach the documents menu, in both orders. |
| SpotBot.Chat.constructor | client/src/components/SpotBot.jsx:86-95 | The chat opens with the greeting, an empty box and no typing indicator. |
| SpotBot.Chat.SetInput | client/src/components/SpotBot.jsx:94 | Typing replaces the box only. |
| SpotBot.Chat.HandleSend | client/src/components/SpotBot.jsx:140-147 | A blank box sends nothing and changes nothing. Otherwise the trimmed text is appended as a user message and sent, the box is cleared and typing starts. |
| SpotBot.Chat.OptionClick | client/src/components/SpotBot.jsx:152-155 | A chip click appends its text as a user message and starts typing. |
| SpotBot.Chat.DeliverReply | client/src/components/SpotBot.jsx:111-135 | When the delay ends, the bot message holding `Respond`'s reply is appended and typing stops. |
| SpotBot.Chat.ResetChat | client/src/components/SpotBot.jsx:160-166 | The conversation is back to the greeting alone. |
| Text.TrimIsCore | client/src/components/SpotBot.jsx:143 | Trimming yields a contiguous slice of the input that neither starts nor ends with white space. |
| Text.TrimEmptyIffBlank | client/src/App.jsx:282 | The trimmed text is empty exactly when every character is white space. |
| Text.LowerChar | client/src/components/SpotBot.jsx:114 | Upper-case ASCII letters move to lower case. Every other character stays. |
| Text.ToLower | client/src/components/SpotBot.jsx:114 | Lowering keeps the length and lowers each character. |
| Text.ToLowerIdempotent | client/src/components/SpotBot.jsx:114 | Lowering twice is lowering once. |
| Text.IncludesIffOccurs | client/src/components/SpotBot.jsx:122 | `includes` holds exactly when the keyword occurs at some offset. |
| Text.MismatchesNotIncluded | client/src/components/SpotBot.jsx:122 | A keyword that disagrees with the input at a listed position for every offset is not included. |

## Left out

- Network calls (axios), `setTimeout` delays, `localStorage`, jsPDF report export, alerts and the rendering of every component are left out. Responses arrive as parameters (`FetchAllData`, `FetchApplications`), timers are separate methods (`ScanFinished`, `AnalysisFinished`, `DeliverReply`), and the day and the random draw of a submission are parameters of `Store.Submit`.
- Concurrency between the optimistic dashboard update and the refetch is not modelled. The two are related by `OptimisticMatchesRefetch` only.
- The rule table (rules.json) is not part of this model. It is a parameter `Rules`.
- The text of error messages that interpolate currency (`formatCurrency`, Intl) is left out. The reasons carry the values they interpolate.
- The recharts rendering, colours and the division of sector totals by 100000 (lakhs) are left out.
- `parseInt` of text that is not a whole number is not modelled. Form fields are blank, typed integers or stored integers, which keeps JavaScript's truthiness of a stored 0.
- JavaScript's loose `<=` between strings and numbers is not modelled.
- `toLowerCase` is modelled for ASCII letters only. `trim` uses the common Unicode white-space characters, not the full Unicode set.
- Object key order is modelled for the keys these components use (non-integer strings, insertion order). Integer-like keys and inherited keys are not modelled.
- LegacyMatch.SortByVerdict: modelled as an in-place stable insertion sort. The engine's own `Array.prototype.sort` algorithm is not part of this model; only its promised stability and the comparator are. Sorting with a favoured verdict of NA is not modelled, because no sort mode favours NA.
- The `currentUser === 'user'` guard of `fetchAllData` is left out. The model treats every fetch as made by an applicant.
- Portal view state (`applicantView`, modal state, `isSubmitting`, preview, filter and sort selections) is not modelled. Only the data that drives decisions is.
- `executeRevoke` is covered by `Store.UpdateStatus`, `Portal.RevokeWithdrawsOffer` and `FetchAllData`. Its modal steps and 800 ms wait are left out.
- The server stores `files` as a JSON string and `entityType`/`timestamp` are posted but never stored. The model keeps the file list as a sequence and drops the other two.
- The server's document flags (`doc_income`, `doc_kyc`, `doc_business`) and the "Legacy Applicant" company name of seed rows are kept as fields, but no property is stated about them.
- Login.LoginForm.HandleLogin: `onLogin`'s storing of the role in `localStorage` is left out. The placeholder text of the username box is presentation only.
- AdminDashboard.CalculateStats: its own contract states the total and the pending count. The value figure is related to the sector totals by `SectorTotalsMatchValue` instead.
- Portal.ColumnOf: a number box left empty is posted as the empty string, which SQLite would keep as empty text, not as null. The model does not distinguish the two, because that case never reaches the server: the step-1 check refuses an empty turnover, amount or years (client/src/App.jsx:283-285) before the step-2 submit button appears.
- SQLite errors other than the UNIQUE refId constraint, and the status-400 responses they produce, are left out.

## Findings

| source | as written | input that shows it | evidently intended | confidence | as-written member | corrected member |
|---|---|---|---|---|---|---|
| client/src/components/SpotBot.jsx:38-61 | The documents entry (keywords include "doc", "file", "kyc" and "proof") comes before the KYC, income, business and file-format entries, and `find` takes the first match. Six chips therefore match the documents entry again: "KYC Documents", "Income Proofs", "Business Proofs", "File Formats" (from the documents answer), "Check Income Proofs" (from the KYC answer) and "Check Business Proofs" (from the income answer). | Click "Income Proofs" after asking about documents: the bot repeats the documents menu. The same holds for each of the other five chips. | Each chip answers with its own section: KYC, income or business requirements, or the accepted file formats. | not executed | SpotBot.SectionChipsLoopBack | SpotBot.SectionChipsReachSections |
