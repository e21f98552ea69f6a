# Fábrica de Ideias — a verified model of the dashboard's core

The dashboard keeps a portfolio of service ideas. Each idea has:

- an id, the service text and its main benefit;
- a cluster and a free-text business model;
- optionally an audience, a status, a creator, a creation date and a revenue estimate;
- five scores, one per evaluation criterion.

This project models in Dafny the parts of the dashboard that decide what happens to those ideas:

- the classifier that maps free-text business models onto six categories;
- the spreadsheet client, with its in-memory mock backend and its `{success, data, error}` envelopes;
- the provider that holds the idea list and changes it after the backend confirms, except for the AI ranking, which is merged into the list before the bulk save and kept if the save fails;
- the CSV export;
- the explorer's score bands, filters and sorting;
- the ranking view with its editable table;
- the overview figures;
- the idea-generator form, the chat assistant, the session provider and the API error classifier.

Pure logic is written as functions with contracts and lemmas. State the source changes in place (React state, the mock's module-level list and counter) is written as classes whose methods state the complete new state. A call to the backend or to the AI is an input of the method that handles its outcome, so that every outcome can be reasoned about.

Modules, one per file:

| file | module | models |
|---|---|---|
| `wrappers.dfy` | `Wrappers` | `Option`, `Result` |
| `text.dfy` | `Text` | `includes`, `toLowerCase`, `trim`, number rendering, `join` |
| `ideas.dfy` | `Ideas` | the records of `types.ts` and the id-based list operations shared by the modules |
| `lists.dfy` | `Lists` | filtering, the stable sorts, `new Set`, string order |
| `business_model.dfy` | `BusinessModel` | `utils/businessModelMapper.ts` |
| `sheet_service.dfy` | `SheetService` | `services/googleSheetService.ts` |
| `csv_export.dfy` | `CsvExport` | the CSV text built by `downloadCSV` |
| `services_context.dfy` | `ServicesContext` | `contexts/ServicesContext.tsx` |
| `explorer.dfy` | `ServiceExplorer` | `components/ServiceExplorerSection.tsx` |
| `prioritization.dfy` | `Prioritization` | `components/PrioritizationSection.tsx` |
| `overview.dfy` | `Overview` | `components/OverviewSection.tsx` |
| `idea_generator.dfy` | `IdeaGenerator` | `components/IdeaGeneratorSection.tsx` |
| `chat.dfy` | `Chat` | `components/ChatWidget.tsx` |
| `auth.dfy` | `Auth` | `contexts/AuthContext.tsx` |
| `error_handler.dfy` | `ErrorHandler` | `utils/errorHandler.tsx` |

Two behaviours of the mock backend and of loading:

- A bulk update reports the number of rows submitted, whether or not their ids were found (`services/googleSheetService.ts:53`).
- Loading keeps a score list of any length; only a value that is not a list is replaced by five zeros (`contexts/ServicesContext.tsx:61`).

## Model

| member | source | states |
|---|---|---|
| `BusinessModel.MapBusinessModel` | utils/businessModelMapper.ts:11-27 | The result is always one of the six categories. A text that already is a category is returned unchanged. |
| `BusinessModel.NoKeywordGivesFallback` | utils/businessModelMapper.ts:26 | A text that is no category and matches no keyword group gives the fallback 'Pacote de Serviço'. |
| `BusinessModel.FirstGroup` | utils/businessModelMapper.ts:19-24 | Returns the first keyword group whose keywords the lower-cased text includes: that group matches and no earlier group does. Returns none exactly when no group matches. |
| `BusinessModel.MapIdempotent` | utils/businessModelMapper.ts:11-27 | Mapping an already mapped text changes nothing. |
| `BusinessModel.FirstMatchWins` | utils/businessModelMapper.ts:19-25 | When group i is the first group the lower-cased text matches, the result is group i's category. |
| `BusinessModel.CaseInsensitiveMatch` | utils/businessModelMapper.ts:12-24 | A text containing, in any case, a word that lower-cases to a keyword of group i (and matching no earlier group) is classified in group i. |
| `BusinessModel.SubscriptionBeatsB2B` | utils/businessModelMapper.ts:19-23 | A text that mentions 'assinatura' in any mix of upper and lower case and also 'B2B' is a subscription: the groups are tried in order. |
| `Ideas.FindIndex` | services/googleSheetService.ts:43 | `findIndex`: the first position holding the id, or none exactly when no entry has it. |
| `Ideas.FindById` | components/PrioritizationSection.tsx:71 | `find`: an entry of the list carrying the id, or none exactly when no entry has it. |
| `Ideas.ReplaceById` | contexts/ServicesContext.tsx:103-105 | The length is kept. Every entry with the record's id becomes the record. Every other entry is unchanged. |
| `Ideas.ReplaceByIdIdempotent` | contexts/ServicesContext.tsx:103-105 | Replacing twice with the same record equals replacing once. |
| `Ideas.RemoveById` | contexts/ServicesContext.tsx:117 | An entry remains exactly when it was in the list and its id differs; the list never grows. |
| `Ideas.RemoveAbsentId` | services/googleSheetService.ts:57 | Removing an id no entry has returns the list unchanged. |
| `Ideas.RemoveByIdIdempotent` | services/googleSheetService.ts:56-60 | A second removal of the same id changes nothing. |
| `Ideas.RemoveKeepsOrder` | contexts/ServicesContext.tsx:117 | Removal distributes over any split of the list, so the survivors keep their relative order. |
| `Ideas.RemoveAppend` | contexts/ServicesContext.tsx:117 | Removing from a concatenation equals concatenating the two removals. |
| `Ideas.Zeros` | services/googleSheetService.ts:37 | `Array(n).fill(0)`: n entries, all zero. |
| `SheetService.ConfiguredUrlUsesHttp` | services/googleSheetService.ts:12 | With the configured web-app URL the mock backend is never consulted. |
| `SheetService.ServiceToSheetData` | services/googleSheetService.ts:141-157 | The id is kept. A missing status becomes 'avaliação'. Missing audience, creator and date become ''. A missing revenue becomes 0. The k-th score column is the k-th score, or 0 past the end of the list. |
| `SheetService.RowToService` | services/googleSheetService.ts:44 | The idea a row stands for: the same id, the five score columns as its scores, and the row's revenue. This is what the merge of line 44 is evidently meant to produce (see Findings). |
| `SheetService.ServiceRoundTrip` | services/googleSheetService.ts:141-157 | Flattening a complete idea and reading the row back gives the same idea. |
| `SheetService.SheetRowRoundTrip` | services/googleSheetService.ts:141-157 | Every row is the flattening of the idea it stands for. |
| `SheetService.AsWrittenMergeLosesScores` | services/googleSheetService.ts:44 | The merge as written keeps the stored scores [5,4,3,5,4] and revenue 150000 of the first seeded idea when it is updated with zero scores and zero revenue. |
| `SheetService.UpdateStoresEdited` | services/googleSheetService.ts:44 | With the corrected merge, updating the list with the row of a complete idea stores exactly that idea at the position of its id. |
| `SheetService.MaxId` | services/googleSheetService.ts:26 | The largest id of the list, or 0: at least 0, no id above it, and it is 0 or some entry's id. |
| `SheetService.SeedsNextId` | services/googleSheetService.ts:21-26 | The seeded ids are 1, 2 and 3, so the first free id is 4. |
| `SheetService.SeedsUnique` | services/googleSheetService.ts:21-25 | The seeded ids are distinct. |
| `SheetService.Created` | services/googleSheetService.ts:37 | An added idea gets the assigned id, five zero scores, revenue 0 and the current time as its creation date. |
| `SheetService.CreatedIgnoresAssignedKeys` | services/googleSheetService.ts:37 | An id, date, scores or revenue in the payload has no effect on the created idea. |
| `SheetService.MergeOne` | services/googleSheetService.ts:42-46 | With the corrected merge (see Findings): the length and the ids at every position are kept. An unknown id leaves the list unchanged. |
| `SheetService.BulkMerge` | services/googleSheetService.ts:49-52 | With the corrected merge (see Findings): the row-by-row merge keeps the length and the ids at every position. |
| `SheetService.BulkMergeStep` | services/googleSheetService.ts:50-52 | One pass of the loop body (find the row's id, replace the entry when found) turns the merge of the rows before it into the merge of the longer prefix. |
| `SheetService.FindIndexSameIds` | services/googleSheetService.ts:50 | Two lists with the same ids at the same positions find every id at the same position. |
| `SheetService.BulkMergeKeepsUnmentioned` | services/googleSheetService.ts:49-52 | An entry whose id no row mentions comes out of a bulk merge unchanged. |
| `SheetService.BulkMergeSkipsUnknown` | services/googleSheetService.ts:49-52 | Rows whose ids are all unknown leave the list as it was. |
| `SheetService.LastRowWins` | services/googleSheetService.ts:49-52 | With the corrected merge (see Findings): the last row submitted for a known id decides that entry, which becomes that row's idea. |
| `SheetService.NotFoundMentionsMissing` | services/googleSheetService.ts:45 | The not-found message always contains 'não encontrado'. |
| `SheetService.MockRankings` | services/googleSheetService.ts:65-67 | One ranking per idea, in order, with the idea's id and five scores, each between 0 and 5. |
| `SheetService.FailureChangesNothing` | services/googleSheetService.ts:96-99 | A request the mock answers with a failure leaves the list and the id counter unchanged. |
| `SheetService.UpdateOutcome` | services/googleSheetService.ts:42-47 | With the corrected merge (see Findings): for a known id, the reply is a success, only that position changes, and it becomes the row's idea. For an unknown id, the reply is a failure containing 'não encontrado' and the list is unchanged. |
| `SheetService.BulkOutcome` | services/googleSheetService.ts:48-55 | A bulk update keeps the length and reports the number of rows submitted. |
| `SheetService.DeleteOutcome` | services/googleSheetService.ts:56-60 | A delete always succeeds, deleting twice equals deleting once, and deleting an absent id changes nothing. |
| `SheetService.RemoveKeepsUnique` | services/googleSheetService.ts:57 | Removal keeps ids unique, and every survivor was in the list. |
| `SheetService.SameIdsKeepUnique` | services/googleSheetService.ts:51 | A merge that keeps the ids at every position keeps them unique. |
| `SheetService.SameIdsKeepIssued` | services/googleSheetService.ts:51 | A merge that keeps the ids at every position keeps them unique and among the ids already issued. |
| `SheetService.MockBackend.constructor` | services/googleSheetService.ts:21-26 | The mock starts with the three seeded ideas and next id 4 (the largest seeded id plus one), with ids unique. |
| `SheetService.MockBackend.GetAll` | services/googleSheetService.ts:33-35 | Answers with the current list and changes nothing. |
| `SheetService.MockBackend.Add` | services/googleSheetService.ts:36-41 | Appends the created idea and increments the counter. The new id was never issued before and no current entry carries it. Ids stay unique. |
| `SheetService.MockBackend.Update` | services/googleSheetService.ts:42-47 | The list becomes the single-row merge and the counter is unchanged. The reply is the row's idea, or the not-found failure for an unknown id. Ids stay unique. |
| `SheetService.MockBackend.BulkUpdate` | services/googleSheetService.ts:48-55 | Its loop leaves the list equal to the row-by-row merge and keeps ids unique; the reply counts every row. |
| `SheetService.MockBackend.Delete` | services/googleSheetService.ts:56-60 | Every entry with the id goes, the counter is unchanged, and the reply carries the id. |
| `SheetService.MockBackend.Handle` | services/googleSheetService.ts:28-102 | Dispatches every action. The new list, the new counter and the reply equal the mock's transition functions; an unknown action is a failure naming it. |
| `SheetService.OrDefault` | services/googleSheetService.ts:109 | The text when present and non-empty, else the fallback; never empty when the fallback is not empty. |
| `SheetService.UnwrapMock` | services/googleSheetService.ts:106-110 | Mock path: the envelope's data exactly when it is a success. Otherwise a non-empty error, which is the envelope's own error when that is non-empty. |
| `SheetService.UnwrapHttp` | services/googleSheetService.ts:112-135 | HTTP path: the data exactly when an envelope arrives whose `success` is not `false`. Every other outcome is an error that starts with the communication prefix. |
| `SheetService.HttpErrorKeepsReason` | services/googleSheetService.ts:132-135 | A failed fetch or an unreadable body gives the prefix followed by the underlying message, which the error therefore contains. |
| `SheetService.MockUpdateOfAbsentIdRaises` | services/googleSheetService.ts:45 | In mock mode, updating an absent id ends in an error containing 'não encontrado'. |
| `SheetService.ApiRequest` | services/googleSheetService.ts:105-136 | Mock mode unwraps the mock's reply to the request, and the mock's list and counter become the transition functions' results. Otherwise the HTTP outcome is unwrapped and the mock is untouched. |
| `SheetService.UpdateRequest` | services/googleSheetService.ts:161 | `updateServiceInSheet` sends an update whose row is the idea flattened by `serviceToSheetData`; for a complete idea, reading that row back gives the idea. |
| `SheetService.BulkRequest` | services/googleSheetService.ts:162 | `bulkUpdateServicesInSheet` sends one row per idea, in order, each the idea flattened. |
| `CsvExport.DoubleQuotes` | contexts/ServicesContext.tsx:176 | Doubling quotes never shortens the text. |
| `CsvExport.EscapeAndQuote` | contexts/ServicesContext.tsx:174-178 | An absent value gives '' and only then. Any other value gives a field that starts and ends with a quote. |
| `CsvExport.EscapeRoundTrip` | contexts/ServicesContext.tsx:174-178 | Reading a quoted field back, with `""` as one quote, yields exactly the value's text and leaves what follows intact. Quotes, ';' and line breaks inside values are therefore safe. |
| `CsvExport.FormatDate` | contexts/ServicesContext.tsx:191 | For an ISO date with month 01-12 and day 01-31, the pt-BR form: ten characters, the day, a slash, the month, a slash, and the year, each taken from the ISO text, so the month shown is 01-12 and the day 01-31. Any other text gives 'Invalid Date'. |
| `CsvExport.ImpossibleMonthIsInvalid` | contexts/ServicesContext.tsx:191 | A month past December is no date: "2023-13-45" gives 'Invalid Date'. |
| `CsvExport.FixedCells` | contexts/ServicesContext.tsx:182-191 | The nine values before the scores: the id first, the category in the business-model column, none absent. |
| `CsvExport.RowCells` | contexts/ServicesContext.tsx:181-195 | One line holds 11 values plus one per score: the id first, the mapped category (`MapBusinessModel`, so one of the six) in the business-model column, the scores in order, and the score total last. No value is absent. |
| `CsvExport.HeaderMatchesRow` | contexts/ServicesContext.tsx:168-195 | With one score per criterion, a line has exactly one value per column title. |
| `CsvExport.QuoteAll` | contexts/ServicesContext.tsx:196 | Every value of the line is escaped, in order. |
| `CsvExport.RowLines` | contexts/ServicesContext.tsx:180-197 | One line per idea, in list order. |
| `CsvExport.CsvContent` | contexts/ServicesContext.tsx:199-200 | The file text is the byte-order mark, the header line, then for each idea in list order a line break followed by that idea's line. |
| `CsvExport.JoinFirstThenRest` | contexts/ServicesContext.tsx:199 | Joining a first part with further parts gives the first part, then each further part after a separator. |
| `CsvExport.RowEndsWithTotal` | contexts/ServicesContext.tsx:181-196 | Every idea's line ends with its score total between quotes. |
| `CsvExport.NoQuotesInNumbers` | contexts/ServicesContext.tsx:176 | Escaping leaves the text of a number unchanged. |
| `ServicesContext.Sanitize` | contexts/ServicesContext.tsx:59-62 | A score list is kept whatever its length and a non-list becomes five zeros; every other field is kept. |
| `ServicesContext.SanitizeForget` | contexts/ServicesContext.tsx:59-62 | Sanitising an idea that already has a score list gives it back unchanged. |
| `ServicesContext.SanitizeAll` | contexts/ServicesContext.tsx:59-62 | One sanitised idea per row, in order. |
| `ServicesContext.RankingMap` | contexts/ServicesContext.tsx:135 | The map has exactly the ranked ids. For an id ranked more than once, the later ranking wins. |
| `ServicesContext.ApplyRankings` | contexts/ServicesContext.tsx:137-140 | The length is kept. A ranked idea gets its ranking's scores and nothing else changes. An unranked idea is unchanged. |
| `ServicesContext.RankedSubset` | contexts/ServicesContext.tsx:146 | Exactly the ideas whose id was ranked. |
| `ServicesContext.RankedSubsetCounts` | contexts/ServicesContext.tsx:146 | The subset holds each idea whose id was ranked as often as the list does, and no other. |
| `ServicesContext.RankedSubsetAppend` | contexts/ServicesContext.tsx:146 | The subset keeps list order: that of two lists one after the other is the two subsets one after the other. |
| `ServicesContext.RankedSubsetHasNewScores` | contexts/ServicesContext.tsx:137-148 | Every idea handed to the bulk save carries its new scores. |
| `ServicesContext.UnrankedUntouched` | contexts/ServicesContext.tsx:137-146 | An idea nobody ranked is unchanged and is not saved. |
| `ServicesContext.LoadErrorText` | contexts/ServicesContext.tsx:66 | Never empty; it is the error's message when that is non-empty. |
| `ServicesContext.RankingErrorText` | contexts/ServicesContext.tsx:153 | A thrown error gives its own message; any other thrown value gives the default message. |
| `ServicesContext.Store.constructor` | contexts/ServicesContext.tsx:37-43 | Empty list, loading, not ranking or refreshing, the connecting message, no error, no notification. |
| `ServicesContext.Store.ShowNotification` | contexts/ServicesContext.tsx:45-47 | The new notification replaces the shown one and carries a fresh stamp, later than the replaced one's. The later stamp holds in the model only: two notifications in the same millisecond share a `Date.now()` id in the source. |
| `ServicesContext.Store.ExpireNotification` | contexts/ServicesContext.tsx:48-50 | The timer clears only the notification it was started for; a newer one survives. |
| `ServicesContext.Store.FetchData` | contexts/ServicesContext.tsx:53-70 | On success the sanitised rows replace the list and the error is cleared. On failure the list stays and the error text is recorded. Loading ends. |
| `ServicesContext.Store.RefreshData` | contexts/ServicesContext.tsx:76-82 | Reloads as `FetchData`, then shows the success notification even when the load failed. Refreshing ends. |
| `ServicesContext.Store.AddService` | contexts/ServicesContext.tsx:84-98 | A confirmed idea is appended, sanitised, with the success notification. A failure leaves the list, notifies with the error text and is rethrown. |
| `ServicesContext.Store.UpdateService` | contexts/ServicesContext.tsx:100-112 | After confirmation every entry with the id is replaced. A failure leaves the list, notifies and is rethrown. |
| `ServicesContext.Store.DeleteService` | contexts/ServicesContext.tsx:114-124 | After confirmation every entry with the id is removed. A failure leaves the list, notifies and is rethrown. |
| `ServicesContext.Store.MergeAndSave` | contexts/ServicesContext.tsx:135-156 | The rankings are merged into the list. The ranked subset is handed to the bulk save exactly when it is non-empty. A failed save sets the error but keeps the merge. Otherwise the saved notification is shown. |
| `ServicesContext.Store.ApplyAIRanking` | contexts/ServicesContext.tsx:126-160 | With no ideas the AI is not called and only the info notification appears. An AI failure leaves the list, sets the error and shows that text as an error notification. A reply is merged and its ranked subset saved. A failed save sets `appError` to the save's error text and ends on an error notification. Otherwise `appError` is kept and the last notification is 'Ranking salvo na planilha com sucesso!'. Ranking ends and nothing is rethrown. |
| `ServicesContext.Store.DownloadCSV` | contexts/ServicesContext.tsx:162-211 | With no ideas there is no file, only the info notification. Otherwise the file is the CSV text of the current list, with the success notification. |
| `ServiceExplorer.ClassificationText` | components/ServiceExplorerSection.tsx:21-26 | Each band is returned exactly on its range of totals: 21 and above, 16–20, 11–15, below 11. |
| `ServiceExplorer.BandRank` | components/ServiceExplorerSection.tsx:21-26 | The band's position in the low-to-high order. |
| `ServiceExplorer.BandsMonotone` | components/ServiceExplorerSection.tsx:21-26 | A higher total never falls in a lower band. |
| `ServiceExplorer.Kept` | components/ServiceExplorerSection.tsx:252-265 | Each idea that passes the grouping, band and status filters, as often as it occurs in the list, and no other. With every filter off, the whole list. |
| `ServiceExplorer.KeptAppend` | components/ServiceExplorerSection.tsx:252-265 | The filter keeps list order: the kept ideas of two lists one after the other are those of the first, then those of the second. |
| `ServiceExplorer.FilteredServices` | components/ServiceExplorerSection.tsx:251-267 | Exactly the ideas that pass, each as often as in the filtered list, ordered by descending id. With every filter off, a permutation of the whole list. |
| `ServiceExplorer.MissingStatusIsEvaluation` | components/ServiceExplorerSection.tsx:261-264 | An idea without a status is shown by the 'avaliação' status filter (or 'all') and by no other status filter. |
| `ServiceExplorer.OwnClusterKept` | components/ServiceExplorerSection.tsx:253 | Filtering by an idea's cluster keeps that idea. |
| `ServiceExplorer.OwnCategoryKept` | components/ServiceExplorerSection.tsx:254 | Filtering by the category an idea's free text maps to keeps that idea. |
| `ServiceExplorer.ClusterList` | components/ServiceExplorerSection.tsx:246 | The cluster of every idea, in list order. |
| `ServiceExplorer.ClusterListMembers` | components/ServiceExplorerSection.tsx:246 | A cluster is in the list exactly when some idea has it. |
| `Lists.Filter` | components/ServiceExplorerSection.tsx:252 | `filter` keeps exactly the elements that pass; the result is no longer than the list. |
| `Lists.FilterCounts` | components/ServiceExplorerSection.tsx:252 | `filter` keeps each element that passes as often as it occurs in the list, and no other. |
| `Lists.FilterAppend` | components/ServiceExplorerSection.tsx:252 | `filter` keeps order: filtering two lists one after the other is filtering each and concatenating. |
| `Lists.SortStrings` | components/ServiceExplorerSection.tsx:246 | `.sort()` on strings: a permutation of the list, in code-point order (see Left out for where this differs from UTF-16 code-unit order). |
| `Lists.SortStringsSameMembers` | components/ServiceExplorerSection.tsx:246 | Sorting keeps exactly the strings of the list. |
| `ServiceExplorer.ClusterOptions` | components/ServiceExplorerSection.tsx:246 | Exactly the clusters that occur, each once, sorted. |
| `ServiceExplorer.FilterOptions` | components/ServiceExplorerSection.tsx:245-249 | The sorted clusters for 'cluster', the six categories for 'businessModel', nothing otherwise. |
| `ServiceExplorer.DefaultValue` | components/ServiceExplorerSection.tsx:269-279 | '' for 'all'. For 'cluster', the least cluster that occurs, or '' with no ideas. For any other type, the first category. |
| `ServiceExplorer.Explorer.constructor` | components/ServiceExplorerSection.tsx:237-242 | The filters start as all, '', all, all. |
| `ServiceExplorer.Explorer.Shown` | components/ServiceExplorerSection.tsx:251-267 | The list shown holds exactly the ideas that pass the current filters. |
| `ServiceExplorer.Explorer.ChangeFilterType` | components/ServiceExplorerSection.tsx:269-279 | The type changes, the value becomes the type's default, and the band and status filters are kept. |
| `ServiceExplorer.SwitchToModelShowsFirstCategory` | components/ServiceExplorerSection.tsx:247-277 | After switching to 'businessModel', an idea passes the grouping filter exactly when it maps to 'Assinatura/Recorrência'. |
| `Prioritization.Classification` | components/PrioritizationSection.tsx:18-23 | The badge text is the explorer's band for the same total. Green is used exactly for 'Altíssima' and red exactly for 'Baixa'. |
| `Prioritization.WithTotals` | components/PrioritizationSection.tsx:202-205 | Every idea is paired with the sum of its scores. |
| `Prioritization.Services` | components/PrioritizationSection.tsx:44 | The ideas of the ranked rows, in order. |
| `Prioritization.CombinedData` | components/PrioritizationSection.tsx:200-207 | A permutation of the ideas, each row's total is its score sum, ordered by non-increasing total. |
| `Prioritization.RankingCoversIdeas` | components/PrioritizationSection.tsx:200-207 | An idea is in the ranking exactly when it is in the list. |
| `Prioritization.Clamp` | components/PrioritizationSection.tsx:143 | The result lies in 0..5. A value already in range is kept; below 0 gives 0 and above 5 gives 5. |
| `Prioritization.EditField` | components/PrioritizationSection.tsx:51-68 | Rows with another id are kept. In a row with the id, a score cell changes only that score and the revenue cell changes only the revenue estimate. |
| `Prioritization.LastEditWins` | components/PrioritizationSection.tsx:51-68 | Setting the same cell twice keeps only the second value. |
| `Prioritization.RankingTable.constructor` | components/PrioritizationSection.tsx:44-45 | The table starts from the ranked rows with no cell being saved. |
| `Prioritization.RankingTable.Sync` | components/PrioritizationSection.tsx:47-49 | New ranked rows replace the local copy and the saving flags are kept. |
| `Prioritization.RankingTable.FieldChange` | components/PrioritizationSection.tsx:51-68 | The local rows become the edit of the cell. |
| `Prioritization.RankingTable.ScoreInput` | components/PrioritizationSection.tsx:143 | A typed score is clamped before the edit: the local rows become the edit of that cell, every row with the id then holds a score in 0..5 at that index, and a value already in 0..5 is stored as typed. |
| `Prioritization.RankingTable.BeginUpdate` | components/PrioritizationSection.tsx:70-75 | The row to send is the one found by id. Only when one is found is the cell marked as saving. |
| `Prioritization.RankingTable.FinishUpdate` | components/PrioritizationSection.tsx:76-81 | Success or failure, the error is swallowed and the cell stops saving. |
| `Prioritization.RankingTable.StatusChange` | components/PrioritizationSection.tsx:84-91 | An unknown id does nothing. Otherwise the row gets the new status locally before the save and keeps it, and a failed save is passed on. |
| `Prioritization.StatusChangeShown` | components/PrioritizationSection.tsx:84-91 | After a status change every row with that id shows the new status and no other row changed. |
| `Overview.CountMap` | components/OverviewSection.tsx:54-57 | Exactly one key per cluster that occurs, holding the number of ideas in it. |
| `Overview.Entries` | components/OverviewSection.tsx:65-66 | One slice per key, in key order, with the key's count. |
| `Overview.ModelList` | components/OverviewSection.tsx:59 | The category of every idea, in order. |
| `Overview.Aggregate` | components/OverviewSection.tsx:53-69 | The figures are: the number of ideas; the number of distinct clusters; and the number of distinct categories, at most six. There is one slice per cluster with its count, sorted by non-increasing count, and the slice values add up to the number of ideas. |
| `Overview.DistributionSize` | components/OverviewSection.tsx:54-66 | There is one slice per distinct cluster. |
| `Overview.DistributionMembers` | components/OverviewSection.tsx:54-67 | Every slice holds the number of ideas of a cluster that occurs, and every cluster that occurs has a slice. |
| `Overview.DistributionTotal` | components/OverviewSection.tsx:54-67 | The slices' counts add up to the number of ideas. |
| `Overview.ModelCount` | components/OverviewSection.tsx:59 | The distinct categories of the ideas number at most six. |
| `Overview.CountsAddUp` | components/OverviewSection.tsx:54-57 | The counts of the distinct clusters add up to the number of ideas. |
| `Overview.SortKeepsTotal` | components/OverviewSection.tsx:67 | Sorting the slices keeps their total. |
| `IdeaGenerator.UniqueClusters` | components/IdeaGeneratorSection.tsx:22 | Exactly the non-empty clusters that occur, each once, sorted. |
| `IdeaGenerator.NewIdea` | components/IdeaGeneratorSection.tsx:57-65 | The submitted record has the following fields. The text and the creator are trimmed. The benefit, audience and business model are copied from the details in the form, which are the AI's reply as the user may have edited it. The cluster is the chosen one and the status is 'avaliação'. Id, date, scores and revenue are left to the backend. |
| `IdeaGenerator.Generator.constructor` | components/IdeaGeneratorSection.tsx:14-20 | An empty form: no details, nothing loading or submitting, no error. |
| `IdeaGenerator.Generator.Edit` | components/IdeaGeneratorSection.tsx:14-17 | Typing sets the idea, the cluster and the name. |
| `IdeaGenerator.Generator.EditBenefit` | components/IdeaGeneratorSection.tsx:125 | Editing the benefit replaces only the benefit of the details; the audience and the business model are kept. |
| `IdeaGenerator.Generator.EditAudience` | components/IdeaGeneratorSection.tsx:135 | Editing the audience replaces only the audience of the details; the benefit and the business model are kept. |
| `IdeaGenerator.Generator.EditModel` | components/IdeaGeneratorSection.tsx:140 | Choosing a business model replaces only the business model of the details; the benefit and the audience are kept. |
| `IdeaGenerator.Generator.AnalyzeIdea` | components/IdeaGeneratorSection.tsx:24-45 | The AI is called exactly when the idea is not blank; a blank idea only sets the error. A reply replaces the details and preselects the first cluster when none is chosen. A failure drops the details and sets the error. Loading ends. |
| `IdeaGenerator.Generator.AddIdea` | components/IdeaGeneratorSection.tsx:47-80 | A record is submitted exactly when the form is complete; an incomplete form only sets the error. On success the form is emptied. On failure it is kept and the error is set. Submitting ends. |
| `IdeaGenerator.Generator.Submit` | components/IdeaGeneratorSection.tsx:53-79 | The record built from the form is sent. Success empties the form and the error; failure keeps the form and sets the error. Submitting ends either way. |
| `IdeaGenerator.SubmittedIdeaNotBlank` | components/IdeaGeneratorSection.tsx:48-58 | A submitted idea's text is non-empty and has no white space at either end. |
| `Chat.Label` | components/ChatWidget.tsx:45 | A page with an address always has a non-empty link text. |
| `Chat.SourcesText` | components/ChatWidget.tsx:41-48 | Nothing is appended exactly when there are no chunks. |
| `Chat.SourcesOpenWithHeader` | components/ChatWidget.tsx:42 | When there are chunks, the appended text starts with the sources header. |
| `Chat.AnswerText` | components/ChatWidget.tsx:39-48 | The loop builds the AI text followed by the sources text of the chunks. |
| `Chat.AnswerStep` | components/ChatWidget.tsx:43-46 | Each chunk the loop reads adds exactly its list item, if it has a page. |
| `Chat.BulletsAppend` | components/ChatWidget.tsx:43-46 | The list items of two chunk lists joined are the two lists' items joined. |
| `Chat.BulletsSnoc` | components/ChatWidget.tsx:43-46 | One more chunk adds its own list item at the end. |
| `Chat.CitedPageListed` | components/ChatWidget.tsx:43-46 | Every chunk with a web address has its list item in the answer. |
| `Chat.UncitedAddNothing` | components/ChatWidget.tsx:44 | Chunks without a page add no list item. |
| `Chat.ChatWidget.constructor` | components/ChatWidget.tsx:12-16 | The conversation opens with the greeting alone, an empty input and no answer awaited. |
| `Chat.ChatWidget.Type` | components/ChatWidget.tsx:15 | Typing sets the input. |
| `Chat.ChatWidget.BeginSubmit` | components/ChatWidget.tsx:27-35 | A question is sent exactly when the input is not blank and no answer is awaited. The trimmed question is appended as the user's message, the input is cleared and the answer is awaited. Otherwise nothing changes. |
| `Chat.ChatWidget.FinishSubmit` | components/ChatWidget.tsx:37-59 | Exactly one AI message is appended: the answer with its sources, or the apology. The wait ends. |
| `Auth.FailureText` | contexts/AuthContext.tsx:45 | The error's message, or the call's default for a thrown value that is not an error. |
| `Auth.AuthProvider.constructor` | contexts/AuthContext.tsx:29-31 | The stored session, with no call running and no error. |
| `Auth.AuthProvider.Begin` | contexts/AuthContext.tsx:39-40 | The call runs and the old error is cleared. |
| `Auth.AuthProvider.FinishLogin` | contexts/AuthContext.tsx:38-50 | A reply stores its user and token and clears the error; the user is then authenticated exactly when the token is non-empty. A failure keeps the session and authentication state, records the message or 'Falha no login.', and is rethrown. The call ends. |
| `Auth.AuthProvider.FinishRegister` | contexts/AuthContext.tsx:52-64 | The same as login, with 'Falha no registro.' as the default message. |
| `Auth.AuthProvider.Logout` | contexts/AuthContext.tsx:66-69 | The session is cleared and the user is no longer authenticated. |
| `ErrorHandler.ParseApiError` | utils/errorHandler.tsx:4-76 | Connection error exactly when the text names 'Failed to fetch' or 'NetworkError'. Backend error exactly when it does not but contains 'unexpected token' (any case) or 'JSON'. Otherwise an unexpected API error. |
| `ErrorHandler.TitlesDistinct` | utils/errorHandler.tsx:10-74 | The three titles differ, so the title alone identifies the situation. |
| `ErrorHandler.ConnectionBeatsJson` | utils/errorHandler.tsx:8-46 | A message naming both a failed fetch and JSON is a connection error. |
| `ErrorHandler.UnexpectedTokenAnyCase` | utils/errorHandler.tsx:46 | 'unexpected token' is recognised in any mix of case. |
| `ErrorHandler.WrappedFetchFailureIsConnection` | utils/errorHandler.tsx:8 | A browser fetch failure, once wrapped by the request function's prefix, is still classified as a connection error. |

## Left out

- Network I/O: the `fetch` call, the status check and the JSON parsing are one abstract outcome (`SheetService.HttpOutcome`) given as an input. The Apps Script backend behind the URL is not part of this model.
- The mock's 300–700 ms `setTimeout` latency is dropped; each request is handled at once.
- `new Date().toISOString()` is the parameter `now`. `Math.random()` in the mock ranking is a function `roll` whose value is reduced modulo 6. `Date.now()` notification ids are the counter `Store.now`.
- The Gemini SDK calls (idea details, ranking, chat insight) are not modelled. Their results enter as the `reply` inputs of the methods that handle them.
- The DOM and the `Blob` download of the CSV file are not modelled; `DownloadCSV` returns the file text.
- Persistence in `localStorage` (the session, the explorer's filters) is not modelled; the stored value is the constructor's input.
- Rendering is not modelled: JSX, `markdownToHtml`, the pie-chart geometry, the modals, and the `details` and troubleshooting markup of `parseApiError`.
- Concurrency: each operation runs atomically. `handleSubmit`, `login`/`register` and `handleUpdate` are split into a start method and a finish method around the awaited call, but interleavings of two calls are not explored.
- `Text.ToLower` lower-cases ASCII and Latin-1 letters only, which covers every keyword of the classifier; full Unicode case mapping is not modelled.
- `CsvExport.FormatDate` reads the date from the ISO text and ignores time zones and the time of day; other date formats give 'Invalid Date'. It checks month 01-12 and day 01-31 but not the length of the month: browsers disagree on "2023-02-30", and the model formats it as "30/02/2023".
- The `id` of the mock user ('1' or '2') is dropped, as is the `id` of chat messages.
- `Lists.StrLe` orders strings by code point, while `Array.prototype.sort` compares UTF-16 code units. The two orders differ only for characters outside the Basic Multilingual Plane: JavaScript puts "\u{1F600}" (a surrogate pair starting with 0xD83D) before "\uFFFF", the model puts it after. Locale collation is not modelled.
- `Lists.SortStrings` inherits that difference from `Lists.StrLe`.
- Scores are integers; `NaN` and fractional numbers typed into the table are not modelled.
- `Overview.Entries` keeps the clusters in order of first appearance, as a `Map` would. The source counts into a plain object, which differs in three ways: `Object.entries` puts integer-like keys first; a cluster named "constructor" or "toString" starts from the inherited function, so `+ 1` concatenates text instead of counting; and a cluster named "__proto__" is never an own key, so it has no slice.
- `Prioritization.RankingTable.FieldChange` requires the score index to exist in the row; the source would write past the end of the score list. Field names are the datatype `Prioritization.Field` rather than the strings `score_<i>` and `revenue`.
- The `total` field that `combinedData` adds to the rows it hands to the table is dropped from the local rows.
- `ServicesContext.Store.ExposedIsLoading` has no contract of its own. It is `isLoading && !isRanking && !isRefreshing` (contexts/ServicesContext.tsx:215).
- The sorts are stable insertion sorts, as `Array.prototype.sort` is, but stability is not stated in any contract.
- `SheetService.MergeOne` implements the corrected merge of the Findings row (replaces the entry with `RowToService` of the row), so scores and revenue are replaced on update; the mock as written keeps the stored ones (`SheetService.MergeRowAsWritten`).
- `SheetService.BulkMerge` implements the corrected merge of the Findings row (merges each row with `MergeOne`), so scores and revenue are replaced on update; the mock as written keeps the stored ones (`SheetService.MergeRowAsWritten`).
- `SheetService.LastRowWins` implements the corrected merge of the Findings row (states the last row's idea, scores and revenue included), so scores and revenue are replaced on update; the mock as written keeps the stored ones (`SheetService.MergeRowAsWritten`).
- `SheetService.Reply` implements the corrected merge of the Findings row (answers an update with `RowToService` of the row), so scores and revenue are replaced on update; the mock as written keeps the stored ones (`SheetService.MergeRowAsWritten`).
- `SheetService.UpdateOutcome` implements the corrected merge of the Findings row (states the entry becomes `RowToService` of the row), so scores and revenue are replaced on update; the mock as written keeps the stored ones (`SheetService.MergeRowAsWritten`).
- `SheetService.MockBackend.Update` implements the corrected merge of the Findings row (stores `MergeOne`), so scores and revenue are replaced on update; the mock as written keeps the stored ones (`SheetService.MergeRowAsWritten`).
- `SheetService.MockBackend.BulkUpdate` implements the corrected merge of the Findings row (stores `BulkMerge`), so scores and revenue are replaced on update; the mock as written keeps the stored ones (`SheetService.MergeRowAsWritten`).
- `SheetService.MockBackend.Handle` implements the corrected merge of the Findings row (follows the transition functions built on `MergeOne`), so scores and revenue are replaced on update; the mock as written keeps the stored ones (`SheetService.MergeRowAsWritten`).
- `IdeaGenerator.Generator.EditModel` accepts any text, while the form's drop-down offers only the six categories; the model does not restrict the choice.

## Findings

| source | as written | input that shows it | evidently intended | confidence | as-written member | corrected member |
|---|---|---|---|---|---|---|
| services/googleSheetService.ts:44, :51 with :141-157 | The mock updates with `{...stored, ...row}`, where the row comes from `serviceToSheetData`. The row carries the scores as `score_*` keys and the revenue as `revenue_estimate`, so the stored `scores` and `revenueEstimate` are never overwritten. | Update the first seeded idea with scores [0,0,0,0,0] and revenue 0. The mock still stores [5,4,3,5,4] and 150000. | The stored idea becomes the idea the row stands for, scores and revenue included. | not executed | `SheetService.MergeRowAsWritten` / `SheetService.AsWrittenMergeLosesScores` | `SheetService.RowToService` / `SheetService.UpdateStoresEdited` |
