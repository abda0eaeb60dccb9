# Library administration console — Dafny model

This project models the logic underneath a library administration console.
The console has two halves: Next.js pages and a FastAPI service over MongoDB.

- **Pages.** The fines, reservations, e-books, settings and global-search pages. Each page keeps its state (search text, selectors, selection lists, payment entries, the settings record, recent searches) and changes it through handlers. That state is modelled as a Dafny `class` whose methods are the handlers. The filters, option lists, summary cards and classifiers are pure functions with lemmas about them.
- **Service.** The search, chat and analytics, report, authentication and system controllers. MongoDB collections become in-memory sequences of documents (`map<string, Json>`). A query becomes a predicate on one document. The loops that build results become methods with loop invariants, each proved equal to a specification function. The in-memory conversation store, the settings collection and the user collection are classes.

Shared modules:

- `Common`: `Option`/`Result`, ASCII lower-casing, substring search, decimal text.
- `Views`: filter, distinct-in-first-occurrence-order, sums and counts.
- `Sorting`: a stable sort by an integer key, with sortedness and permutation proved. It stands for JavaScript's `Array.prototype.sort` and Python's `list.sort`.
- `Selection`: the id-selection list shared by the fines and reservations pages.
- `Documents`: MongoDB documents, Python truthiness, ObjectId texts, and the `_id` → `id` exposure.

The page modules are `Fines`, `Reservations`, `EBooks`, `Settings` and `Search`. The service modules are `SearchController`, `AiController`, `Reports`, `Auth` and `System`.

Select-all on the fines and reservations pages compares counts, not ids. For every non-empty view there is a selection of as many ids, none of them shown, that select-all clears instead of selecting the view (`Selection.SelectAllComparesCounts`).

## Model

| member | source | states |
|---|---|---|
| Selection.Toggled | frontend/app/fines/page.tsx:633-639 | toggling flips membership of exactly that id and no other; it keeps a duplicate-free list duplicate-free; a new id is appended at the end, and removing an id keeps the rest in order |
| Selection.ToggleTwice | frontend/app/reservations/page.tsx:367-373 | toggling twice restores the selected set, and restores the exact list when the id was not selected |
| Selection.SelectAll | frontend/app/fines/page.tsx:642-649 | equal counts clear the selection; otherwise the selection becomes exactly the view's ids in view order |
| Selection.SelectAllTwice | frontend/app/reservations/page.tsx:376-383 | a second press on an unchanged view clears whatever the first press selected |
| Selection.SelectAllComparesCounts | frontend/app/fines/page.tsx:643-644 | the comparison is by count: every non-empty view has a selection of distinct ids, none in the view, that select-all clears rather than replacing it with the view |
| Fines.FilteredFinesSpec | frontend/app/fines/page.tsx:249-261 | the view is an order-preserving subsequence; a kept fine passes the search and both selectors ('All' or equal); every such fine is kept |
| Fines.FilteredFinesIdentity | frontend/app/fines/page.tsx:250-258 | an empty search with both selectors on 'All' shows every fine |
| Fines.StatusesSpec | frontend/app/fines/page.tsx:264 | 'All' first, then each status of some fine exactly once, in first-occurrence order |
| Fines.TypesSpec | frontend/app/fines/page.tsx:265 | 'All' first, then each fine type other than 'None' exactly once; 'None' never offered |
| Fines.TotalsBalance | frontend/app/fines/page.tsx:269-271 | over all fines, total amount = total paid + total pending when each fine is balanced |
| Fines.StatusCardsBounded | frontend/app/fines/page.tsx:272-273 | the overdue and pending cards together never exceed the number of fines |
| Fines.PaymentPercentageBounds | frontend/app/fines/page.tsx:705-708 | the percentage is 100 for a zero fine or a fully paid one, 0 when nothing was paid, and always within 0..100 |
| Fines.FindFine | frontend/app/fines/page.tsx:685 | `find`: a found fine is in the list with that id; none found means no fine has it |
| Fines.SelectedTotalOfView | frontend/app/fines/page.tsx:867-870 | selecting the ids of a sub-view makes the bulk panel's total equal that view's pending amount |
| Fines.CheckPayment | frontend/app/fines/page.tsx:678-689 | refused iff the entered amount is ≤ 0, or exceeds the remaining amount of the fine with that id; an accepted amount is positive and within the remaining amount |
| Fines.FinesPage.constructor | frontend/app/fines/page.tsx:8-15 | empty search, both selectors 'All', nothing selected, no payment entries |
| Fines.FinesPage.SetSearchQuery | frontend/app/fines/page.tsx:8 | stores the search text |
| Fines.FinesPage.SelectStatus | frontend/app/fines/page.tsx:9 | stores an offered status option |
| Fines.FinesPage.SelectType | frontend/app/fines/page.tsx:10 | stores an offered type option |
| Fines.FinesPage.ToggleFineSelection | frontend/app/fines/page.tsx:633-639 | the selection becomes `Toggled` of the old one and stays duplicate-free |
| Fines.FinesPage.SelectAll | frontend/app/fines/page.tsx:642-649 | the selection becomes `SelectAll` of the old one against the ids of the current view, and stays duplicate-free |
| Fines.FinesPage.HandleBulkAction | frontend/app/fines/page.tsx:652-676 | refused iff nothing is selected; otherwise reports the chosen action on the selected count, and waiving only when confirmed |
| Fines.FinesPage.EnterPayment | frontend/app/fines/page.tsx:1205-1208 | sets this fine's entry to the parsed amount, or 0 when the text does not parse |
| Fines.FinesPage.HandlePayment | frontend/app/fines/page.tsx:678-693 | the outcome is `CheckPayment`; only on acceptance is this fine's entry reset to 0, and otherwise nothing changes |
| Fines.FinesPage.ResetFilters | frontend/app/fines/page.tsx:696-702 | search, selectors, selection and payment entries are back to their initial values |
| Reservations.FilteredReservationsSpec | frontend/app/reservations/page.tsx:167-177 | the view is an order-preserving subsequence holding exactly the reservations that pass the search and the status selector |
| Reservations.IsbnIsCaseSensitive | frontend/app/reservations/page.tsx:168-172 | an ISBN is matched against the raw query, case-sensitively, while a member id is matched case-insensitively |
| Reservations.StatusCountsBounded | frontend/app/reservations/page.tsx:183-186 | the pending, ready and completed counts are over all reservations and together are ≤ the total |
| Reservations.RowActions | frontend/app/reservations/page.tsx:720-761 | Mark Ready iff Pending; Pickup Done iff Ready for Pickup; Cancel iff one of those two; Notify always, and last |
| Reservations.ClosedReservationsOnlyNotify | frontend/app/reservations/page.tsx:720-761 | any other status offers only Notify |
| Reservations.ReservationsPage.constructor | frontend/app/reservations/page.tsx:8-12 | empty search, status 'All', nothing selected |
| Reservations.ReservationsPage.SetSearchQuery | frontend/app/reservations/page.tsx:8 | stores the search text |
| Reservations.ReservationsPage.SelectStatus | frontend/app/reservations/page.tsx:9 | stores an offered status option |
| Reservations.ReservationsPage.ToggleReservationSelection | frontend/app/reservations/page.tsx:367-373 | the selection becomes `Toggled` of the old one and stays duplicate-free |
| Reservations.ReservationsPage.SelectAll | frontend/app/reservations/page.tsx:376-383 | the selection becomes `SelectAll` of the old one against the ids of the current view |
| Reservations.ReservationsPage.ClearSelection | frontend/app/reservations/page.tsx:602 | the selection is emptied |
| Reservations.ReservationsPage.HandleBulkAction | frontend/app/reservations/page.tsx:409-425 | refused iff nothing is selected; notify reports the count; cancel reports the count only when confirmed |
| EBooks.FilteredEBooksSpec | frontend/app/ebooks/page.tsx:194-203 | the view is an order-preserving subsequence; an e-book is shown iff its title, author or category contains the folded query and its category is the selected one (unless the selection is 'All') |
| EBooks.FilteredEBooksIdentity | frontend/app/ebooks/page.tsx:195-200 | the empty query with 'All' shows the whole catalogue |
| EBooks.CategoriesSpec | frontend/app/ebooks/page.tsx:206 | 'All' first, then each category exactly once, in first-occurrence order |
| EBooks.DownloadsSplitByView | frontend/app/ebooks/page.tsx:210 | total downloads is over the whole catalogue: the view's downloads plus the hidden ones |
| EBooks.CardsBounded | frontend/app/ebooks/page.tsx:209-212 | the available and featured counts are each ≤ the total |
| EBooks.DownloadButton | frontend/app/ebooks/page.tsx:745-750 | disabled iff no copy is available; captioned "Download" iff a copy is available |
| EBooks.DownloadLabelAgrees | frontend/app/ebooks/page.tsx:745-750 | with non-negative copy counts, the button is disabled exactly when it reads "Unavailable" |
| EBooks.FindEBook | frontend/app/ebooks/page.tsx:396 | `find`: a found e-book has that id; none found means no e-book has it |
| EBooks.HandleAction | frontend/app/ebooks/page.tsx:395-409 | no notice iff the action is not download, preview or edit; a notice carries the title of the e-book with that id, if any |
| Settings.ResetMatchesInitial | frontend/app/settings/page.tsx:205-266 | the record the reset writes equals the initial record |
| Settings.SettingChanged | frontend/app/settings/page.tsx:127-135 | the named field of the named category holds the value; every other field and category is unchanged |
| Settings.InputValue | frontend/app/settings/page.tsx:324-334 | a number input stores the parsed number or 0; a checkbox stores its checked state; anything else stores the text |
| Settings.PlansEdited | frontend/app/settings/page.tsx:138-152 | only the named field of the plan at the index changes (a failed number parse gives 0); the length and the other plans are kept |
| Settings.NewPlan | frontend/app/settings/page.tsx:155-169 | the added plan is "Plan n+1" with max books 3 and price 0 |
| Settings.PlansAfterRemove | frontend/app/settings/page.tsx:172-184 | the plan at the index is removed only while more than one plan exists |
| Settings.RemoveKeepsAPlan | frontend/app/settings/page.tsx:172-184 | no run of removals empties the plan list |
| Settings.DaysAfterAdd | frontend/app/settings/page.tsx:986-991 | only a positive parsed day is added; the result is sorted ascending and is a permutation of the old days plus the new one |
| Settings.DueReminderToggle | frontend/app/settings/page.tsx:1034-1035 | after the toggle the checkbox reads checked exactly as clicked (2 days or 0) |
| Settings.SettingsPage.constructor | frontend/app/settings/page.tsx:14-70 | the editor starts from the initial record |
| Settings.SettingsPage.HandleSettingChange | frontend/app/settings/page.tsx:127-135 | the record becomes `SettingChanged` of the old one |
| Settings.SettingsPage.RenderedFieldChange | frontend/app/settings/page.tsx:324-334 | a rendered field stores its converted input through the single-field update |
| Settings.SettingsPage.HandleMembershipPlanChange | frontend/app/settings/page.tsx:138-152 | the plan list becomes `PlansEdited`; nothing else changes |
| Settings.SettingsPage.AddMembershipPlan | frontend/app/settings/page.tsx:155-169 | exactly one `NewPlan` is appended; nothing else changes |
| Settings.SettingsPage.RemoveMembershipPlan | frontend/app/settings/page.tsx:172-184 | with more than one plan the indexed plan is removed; otherwise the record is unchanged |
| Settings.SettingsPage.RemoveReminderDay | frontend/app/settings/page.tsx:975-978 | exactly the element at the index is removed from the reminder days |
| Settings.SettingsPage.AddReminderDay | frontend/app/settings/page.tsx:986-991 | a positive day yields `DaysAfterAdd`; anything else leaves the record unchanged |
| Settings.SettingsPage.ToggleDueReminder | frontend/app/settings/page.tsx:1034-1035 | stores 2 or 0 days, and the checkbox then reads as clicked |
| Settings.SettingsPage.ResetToDefaults | frontend/app/settings/page.tsx:205-266 | when confirmed the record equals the initial one; otherwise it is unchanged |
| Settings.SettingsPage.Restore | frontend/app/settings/page.tsx:297-315 | a file that fails to parse leaves the settings unchanged; a parsed one replaces them |
| Search.ToDisplay | frontend/app/search/page.tsx:142-154 | status 'Available' iff available copies > 0, else 'Borrowed'; kind 'book', location 'Main Hall' and rating 4.5 fixed; the other fields are copied from the API book |
| Search.RecentAfter | frontend/app/search/page.tsx:165-166 | a term already listed leaves the list alone; a new term goes first, followed by at most the first four old entries |
| Search.RecentAfterBounded | frontend/app/search/page.tsx:165-166 | the list keeps at most 5 entries and no term twice, and it contains the searched term |
| Search.SearchPage.constructor | frontend/app/search/page.tsx:10-40 | empty query and results, type 'all', the five initial recent searches, all filters 'any' |
| Search.SearchPage.PerformSearch | frontend/app/search/page.tsx:130-174 | a blank query empties the results and calls nothing; a success shows the mapped books with total = their number and empty member, e-book and reservation lists, and records the lower-cased query; a failure changes only the busy flag |
| Search.SearchPage.ClearSearch | frontend/app/search/page.tsx:205-210 | the query is '', the results are empty with total 0, and all filters are 'any' |
| Search.SearchPage.ResetFilters | frontend/app/search/page.tsx:213-216 | the filters are 'any'; a non-empty query is searched again with `PerformSearch`'s outcomes: a blank query clears the results, a failed request leaves results and recent searches as they were, a successful one replaces them; after a non-blank search the busy flag is clear |
| Search.StatusColor | frontend/app/search/page.tsx:246-258 | success iff the lower-cased status is available/active/ready; warning iff borrowed/pending; danger otherwise |
| Search.StatusColorIgnoresCase | frontend/app/search/page.tsx:247 | a status and its lower-case form get the same colour |
| Search.ViewLink | frontend/app/search/page.tsx:235-243 | each known kind maps to `/<plural>/<id>`; '#' iff the kind is unknown |
| Search.ViewLinkInjective | frontend/app/search/page.tsx:235-243 | two records of known kinds share a link only if they have the same kind and id |
| Search.AddEach | frontend/app/search/page.tsx:261-265 | adding each element to an insertion-ordered set gives the distinct elements in first-occurrence order |
| Search.GetCategories | frontend/app/search/page.tsx:261-266 | the book categories then the e-book categories, each once, in first-occurrence order |
| Search.GetStatuses | frontend/app/search/page.tsx:276-282 | the book, member and reservation statuses, each once, in first-occurrence order |
| Search.GetYears | frontend/app/search/page.tsx:269-273 | the books' years as text, distinct, in non-increasing numeric order, and exactly the years of some book |
| Search.SortedYears | frontend/app/search/page.tsx:272 | sorting newest-first keeps the options distinct and the same set, in non-increasing year order |
| Search.YearTextsMembership | frontend/app/search/page.tsx:271 | an option is offered iff it is the year of some book |
| Search.YearOptionsAreYears | frontend/app/search/page.tsx:272 | every option parses back to the year of some book |
| SearchController.AdvancedQuery | app/controllers/search_controller.py:9-32 | a key for each truthy parameter only: title and author as case-insensitive patterns, category and isbn exact; `publication_year` iff min or max is non-zero, with `$gte`/`$lte` only for the given bound; `available_copies > 0` iff available-only |
| SearchController.AdvancedQueryMeaning | app/controllers/search_controller.py:9-32 | a book satisfies the built query iff it meets every given parameter |
| SearchController.ZeroYearIsNoBound | app/controllers/search_controller.py:23-28 | a year bound of 0 builds the same query as no bound |
| SearchController.BuildAdvancedQuery | app/controllers/search_controller.py:9-32 | the key-by-key construction builds exactly `AdvancedQuery` |
| SearchController.AdvancedSearch | app/controllers/search_controller.py:34-43 | the matching books in collection order, each with its id exposed; total = their number |
| SearchController.ExposeEach | app/controllers/search_controller.py:36-38 | the cursor loop keeps every book, in cursor order, with its id exposed |
| SearchController.FoundMeetsRequest | app/controllers/search_controller.py:34-36 | the books found are exactly the books meeting the request, in order |
| SearchController.GetSuggestions | app/controllers/search_controller.py:45-76 | no suggestions for a query shorter than 2; at most 10, no duplicates, each a prefix match from a selected source; all candidates when there are at most 10 distinct ones; the type is echoed |
| SearchController.DistinctPrefix | app/controllers/search_controller.py:74 | `list(set(xs))[:n]` has no repeats, at most n items, nothing new, and everything when at most n are distinct |
| SearchController.PickedSources | app/controllers/search_controller.py:52-71 | each candidate is among the first five prefix matches of a source the type selects |
| SearchController.Score | app/controllers/search_controller.py:146-154 | the score lies in 0..18 (read only for hits whose three fields are absent or text) |
| SearchController.Scored | app/controllers/search_controller.py:143-154 | the scored book carries `Score` as its relevance and its id exposed |
| SearchController.ScoredAll | app/controllers/search_controller.py:142-155 | each book of the cursor is scored, in cursor order |
| SearchController.ScoresInRange | app/controllers/search_controller.py:146-154 | every result's relevance is in 0..18 |
| SearchController.RankedByScore | app/controllers/search_controller.py:158 | the sort is a permutation ordered by non-increasing relevance |
| SearchController.ScoreEach | app/controllers/search_controller.py:142-155 | the scoring loop computes `ScoredAll` of the cursor when every hit's title, author and description is absent or text, and the 500 error otherwise |
| SearchController.SemanticSearch | app/controllers/search_controller.py:125-164 | a 500 error iff some hit has a title, author or description that is neither absent nor text (`.lower()` raises, e.g. on a stored null description); otherwise at most 20 results, total = their number; they are the first 20 matches, scored, in non-increasing relevance, each with a relevance in 0..18 |
| SearchController.History | app/controllers/search_controller.py:86-91 | 500 iff some transaction of the member has a book id `ObjectId` refuses (missing, text that is not ObjectId text, or a value other than text, an ObjectId or null); a null book id makes a fresh ObjectId and finds nothing; otherwise each element is the found book of one of the member's transactions, and the found book of every such transaction is included; other members' transactions are never read |
| SearchController.HistoryInOrder | app/controllers/search_controller.py:86-91 | a successful history is exactly the found books of the member's transactions, in transaction order |
| SearchController.HistoryErrorPersists | app/controllers/search_controller.py:88-89 | once a transaction fails, the whole request fails with that error |
| SearchController.SimilarHits | app/controllers/search_controller.py:102-110 | at most 10 books of the collection, each sharing a category or an author with the history; every such book when fewer than 10 are returned |
| SearchController.NotBorrowed | app/controllers/search_controller.py:111-115 | the cursor's books whose id is not borrowed, in cursor order, each with its id exposed; no result's id is among the borrowed ids |
| SearchController.NotBorrowedFromCursor | app/controllers/search_controller.py:111-115 | each recommendation is the exposed form of an unborrowed book of the cursor |
| SearchController.NotBorrowedKeepsTheRest | app/controllers/search_controller.py:113-115 | every cursor book not borrowed is recommended |
| SearchController.Recommend | app/controllers/search_controller.py:78-123 | an invalid member id is 400; a malformed transaction is 500; the popular fallback iff the history is empty; for a non-empty history, 500 iff a borrowed book's category or author is a list or a dict (unhashable in `set`), and otherwise recommendations from the history: at most 10 books, none borrowed, with the history's distinct categories and authors as the basis, and the recommendations are `NotBorrowed` of the `SimilarHits` those categories and authors select, by the history's ids |
| SearchController.RecommendationsAreSimilarBooks | app/controllers/search_controller.py:102-115 | for any categories, authors and borrowed ids: each recommendation is, with its id exposed, an unborrowed book of the collection among the first ten sharing a category or an author; every such unborrowed book is recommended |
| SearchController.BorrowedBooks | app/controllers/search_controller.py:86-91 | the history loop computes `History`: it stops with 500 at a refused book id and skips a null one |
| SearchController.ExcludeBorrowed | app/controllers/search_controller.py:109-115 | the exclusion loop computes `NotBorrowed` |
| SearchController.GetRecommendations | app/controllers/search_controller.py:78-123 | the service computes `Recommend`, including the 500 for an unhashable category or author |
| AiController.FirstMatchIsFirst | app/controllers/ai_controller.py:15-28 | an ordered rule chain answers with the first rule whose keywords occur |
| AiController.FirstMatchNone | app/controllers/ai_controller.py:27-28 | with no rule matching, the chain gives the default |
| AiController.ChatTopicFollowsRules | app/controllers/ai_controller.py:15-28 | the chat topic is the first match, in the order hours/open, borrow/checkout, fine/late, renew, membership, search/find, then help |
| AiController.ChatTopicIgnoresCase | app/controllers/ai_controller.py:11 | matching is on the lower-cased message, so letter case does not change the reply |
| AiController.ConversationId | app/controllers/ai_controller.py:12 | a non-empty given id is reused; otherwise the fresh id is used |
| AiController.Recorded | app/controllers/ai_controller.py:31-37 | exactly one exchange is appended to that conversation; every other conversation is unchanged |
| AiController.RecordedKeepsHistory | app/controllers/ai_controller.py:31-37 | every conversation's history only grows: the old history is a prefix, and only the used one grows by one |
| AiController.ConversationStore.constructor | app/controllers/ai_controller.py:7 | the store starts empty |
| AiController.ConversationStore.ChatAssistant | app/controllers/ai_controller.py:9-42 | the returned id is the one used; the reply is the first-matching rule's text; the store becomes `Recorded` of the old store |
| AiController.QueryIntentFollowsRules | app/controllers/ai_controller.py:46-84 | the intent is the first of 'how many books', 'available books', 'overdue', 'members' found in the lower-cased query |
| AiController.QueryData | app/controllers/ai_controller.py:44-89 | the query is echoed; data is empty iff nothing matched; otherwise data holds the one count the matched phrase asks for |
| AiController.UtilizationRate | app/controllers/ai_controller.py:101 | 0 when there are no books; otherwise rate × total = active borrows × 100 |
| AiController.Insights | app/controllers/ai_controller.py:115-123 | the high insight iff the rate > 70; the low one iff < 30; never both; low availability iff available < 20% of the total; at most 2 |
| AiController.MostCommon | app/controllers/ai_controller.py:104-112 | the chosen category is a candidate with the largest count |
| AiController.MostPopularCategory | app/controllers/ai_controller.py:104-112 | "N/A" for no books; otherwise the category of some book, with the largest count |
| AiController.GetAnalytics | app/controllers/ai_controller.py:91-137 | the collection sizes, available ≤ total books and active ≤ total transactions as counted, the rate `UtilizationRate` gives, the three insights each iff its threshold, a most popular category with the largest count, and the given time |
| AiController.EmptyLibraryAnalytics | app/controllers/ai_controller.py:101-120 | an empty collection gives rate 0, only the low-utilization insight, and category "N/A" |
| AiController.AnalyticsCountsBounded | app/controllers/ai_controller.py:94-123 | available ≤ total books, active borrows ≤ total transactions, at most 2 insights |
| Reports.PeriodQuery | app/controllers/report_controller.py:10-17 | the date field is constrained iff a bound is given; only that key; `$gte`/`$lte` are exactly the given bounds |
| Reports.DateFilter | app/controllers/report_controller.py:41-48 | the key-by-key construction builds exactly `PeriodQuery` |
| Reports.PeriodQueryMeaning | app/controllers/report_controller.py:10-17 | a document matches the filter iff its date lies within the given bounds |
| Reports.StatusCount | app/controllers/report_controller.py:20-22 | a status count never exceeds the documents counted |
| Reports.StatusCountsWithinTotal | app/controllers/report_controller.py:19-22 | the borrowed, returned and overdue counts together are ≤ the transactions in the period |
| Reports.BorrowingReport | app/controllers/report_controller.py:8-37 | type "borrowing", the generation time, and the four counts over the transactions in the period |
| Reports.BucketsWithinTotal | app/controllers/report_controller.py:55-62 | with non-negative amounts, pending + paid + waived ≤ total; equality when every status is one of the three |
| Reports.FineTotals | app/controllers/report_controller.py:50-62 | the accumulation loop fails with 500 iff some fine cannot be read, and otherwise computes the total and the three status buckets |
| Reports.FinesReport | app/controllers/report_controller.py:39-77 | 500 iff some fine created in the period lacks `amount` or `status` or has an amount that cannot be added; otherwise type "fines", the generation time, and the total and buckets over those fines; fines outside the period are never read |
| Reports.Lookup | app/controllers/report_controller.py:109 | finds a key iff some entry has it, and returns that entry's value |
| Reports.CustomReport | app/controllers/report_controller.py:106-116 | the data echoes the params; the type is the params' "type", defaulting to "custom" |
| Reports.CsvRows | app/controllers/report_controller.py:120-135 | 3 + \|data\| rows: the type (or "Unknown"), the generation time (or ""), an empty row, then one [key, value] row per entry in order |
| Reports.CsvKeepsData | app/controllers/report_controller.py:130-133 | the data section read back from the rows is the report's data |
| Reports.ExportReport | app/controllers/report_controller.py:118-138 | "csv" gives the rows of `CsvRows`; any other format returns the report unchanged |
| Reports.CustomReportCsv | app/controllers/report_controller.py:106-135 | exporting a custom report gives 3 + \|params\| rows, its type, and its params back |
| Auth.GetCurrentUser | app/utils/auth.py:10-42 | no payload or no subject is 401; a subject that is not ObjectId text is 500 (no handler catches the `ObjectId` error); no stored user under that id is 401; the stored user is returned iff active, otherwise 403; and whatever is returned is stored under the subject's id and is active |
| Auth.GetCurrentUserRefusals | app/utils/auth.py:29-40 | an unknown user is 401 "User not found"; an explicitly inactive user is 403; a user without the flag passes |
| Auth.RequireRole | app/utils/auth.py:48-57 | a user passes unchanged iff their role is in the allowed list, otherwise 403; an earlier refusal passes through |
| Auth.RequireRoleWidens | app/utils/auth.py:48-57 | a guard allowing more roles passes every user a narrower one passes |
| Auth.RolesNested | app/utils/auth.py:60-62 | passing the admin guard implies passing the librarian guard, which implies passing the member guard |
| Auth.UnknownRoleRefused | app/utils/auth.py:51-55 | a user without a role fails even the member guard |
| System.KeyIndex | app/controllers/system_controller.py:22 | `find_one` by key: the first setting with the key, or none has it |
| System.Upserted | app/controllers/system_controller.py:20-43 | keys stay unique; exactly one setting has the key, with the new value, description and update time; other settings are unchanged; an existing one keeps its place and creation time, and a new one is appended |
| System.UpsertTwice | app/controllers/system_controller.py:20-43 | upserting the same setting twice differs from once only in the update time |
| System.SettingsCollection.constructor | app/controllers/system_controller.py:20-22 | an empty collection with unique keys |
| System.SettingsCollection.UpdateSettings | app/controllers/system_controller.py:20-48 | the collection becomes `Upserted` of the old one; the success message echoes the key |
| System.StaffRefusal | app/controllers/system_controller.py:91-104 | a role outside admin/librarian is refused first; otherwise refused iff the email is registered; both are 400 |
| System.StaffDoc | app/controllers/system_controller.py:107-114 | the stored account has the email, role, password hash, `is_active` true and creation time |
| System.UserStore.constructor | app/controllers/system_controller.py:116 | the store holds the given users |
| System.UserStore.AddStaff | app/controllers/system_controller.py:89-122 | a refused request returns its 400 and leaves the users unchanged; otherwise exactly one account is appended and the id and role are returned |
| System.StaffView | app/controllers/system_controller.py:80-81 | the id is exposed and `password_hash` removed; every other field is kept |
| System.ListStaff | app/controllers/system_controller.py:75-87 | the admin and librarian accounts in collection order, each without `password_hash`; total = their number |
| Documents.Get | app/utils/auth.py:36 | `dict.get`: the stored value if present, otherwise the default |
| Documents.Exposed | app/controllers/search_controller.py:37 | `id` holds the text of an ObjectId or string `_id` (other ids as admitted under Left out), `_id` is gone, and every other field is kept |
| Documents.FindById | app/utils/auth.py:29 | `find_one({"_id": ObjectId(id)})`: a found document is in the collection under that id; none found means no document has it |

## Left out

- Rendering: styles, colour palettes, dark mode, layout, grid/list toggles, icons, and `toLocaleString` formatting.
- The reports page (`frontend/app/reports/page.tsx`): mock data and chart geometry only.
- `alert`, `confirm` and `prompt`: their answers are parameters (`confirmed`, a parsed `Option`), and the notices are datatypes instead of text.
- Timers (the `setTimeout` delays around saving and resetting), and the backup download in settings.
- `FileReader`, `JSON.parse`, `JSON.stringify`, `parseInt` and `parseFloat`: a parse result is an `Option`.
- The Python `csv` writer's text encoding and `str()` of a timestamp: the export yields the rows handed to the writer.
- `uuid.uuid4` and `datetime.utcnow`: the fresh id and the clock are parameters. Dates are integer timestamps.
- JWT decoding and `hash_password`: parameters (the decoded payload as an `Option`, the hash as a function).
- The `WWW-Authenticate` header of the first 401.
- `get_current_active_user`: it returns its argument unchanged.
- MongoDB and the search API are in-memory sequences:
  - `$regex` with `"i"` is a case-insensitive substring match;
  - `^query` is a case-insensitive prefix match;
  - regular-expression metacharacters in the query are not interpreted.
- Mixed numeric types in a query (an `int` bound against a `float` field) are not modelled. `ObjectId` text is compared lower-cased.
- `get_settings`, `health_check`, `popular_books_report` and `get_popular_books`: these are database reads and an aggregation pipeline. The recommendation fallback appears as the value `PopularFallback`, without its contents.
- The search page's async race between overlapping searches; `isSearching` is modelled only before and after one call.
- The search page's member, e-book and reservation result lists are only ever set empty, so they are kept as ids.
- Report fields `period` and `message`: the `Report` datatype carries the type, the generation time and the data section only.
- Floating point: `Math.round` is modelled on reals (half up), and `round(rate, 2)` is not applied. Fine amounts are `real` in the service and integers on the page.
- `String.prototype.toLowerCase` and Python `str.lower` are modelled on ASCII letters only.
- `String.prototype.trim`'s white-space set is the common characters, not the full Unicode category.
- Search.GetYears: JavaScript's sort is stable, but the model does not state in which order equal years (texts with the same numeric value) end up.
- SearchController.GetSuggestions: Python `set` order is unspecified, so the model keeps first-occurrence order and claims only no-duplicates, the bound of 10, the sources, and completeness when at most 10 are distinct. MongoDB's `distinct` promises no order either, so which five values each source's `[:5]` keeps is unspecified; the model (`Matching`, `PickedSources`) takes them in collection first-occurrence order.
- Reports.ExportReport: the report body is modelled as a `Report` whose data is a list of entries; a `data` value that is not a dict (where `data.items()` raises) cannot be expressed, and duplicate keys, which a dict cannot hold, are not excluded.
- SearchController.History: `ObjectId` also accepts a 12-byte value; the document model has no bytes value, so such a book id cannot be expressed.
- SearchController.Recommend: the categories and authors are `list(set(...))` in an unspecified order; the model keeps first-occurrence order. Python's `set` also identifies equal numbers of different types (`1`, `1.0`, `True`), which `Distinct` keeps apart.
- Documents.Exposed: `str(book.pop("_id"))` gives Python's text of any id ("5" for an int, "None" for null); `IdText` gives the text only for an ObjectId or a string and "" for any other id, and `AdvancedSearch`, `SemanticSearch`, `Recommend` and `ListStaff` inherit this.
- AiController.MostPopularCategory: when categories tie, MongoDB's `$sort` picks one unspecified; the model claims only that the result has the largest count.
- Selection.ToggleTwice: restores the exact list only when the id was absent; a selected id comes back at the end of the list.
- Fines.CheckPayment: amounts are integers (`parseInt`), so fractional payments are not modelled.
- The reservations page's per-row `handleAction` alerts (Mark Ready, Pickup Done, Cancel, Notify) only show messages; the model covers which buttons a row offers.
