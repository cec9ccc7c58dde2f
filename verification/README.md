# Expense tracker: service, schema and dashboard logic in Dafny

This project models the logic inside a personal expense tracker: a REST
service that lists, adds, updates and deletes expense records, the record
schema, and the browser dashboard's filtering, summary and form state.

- `schema.dfy` (module `Schema`) defines the stored expense document.
  - `SchemaValid` is the schema as a predicate: required fields, the ten
    categories, Need or Want, `amount >= 0`, and a trimmed title.
  - `Trim` is JavaScript's `trim`, with its white-space set written out.
- `expense_service.dfy` (module `ExpenseService`) holds the four handlers as
  methods of `ExpenseStore`.
  - The store is a `map` from document id to document, plus the next fresh
    id. It stands in for the database collection.
  - The handlers' input checks are pure functions: `ValidateFields` and
    `ValidateAdd`.
  - Each handler answers with a `Reply`: a status (200, 201, 400, 404, 500)
    and the message the controller sends.
  - Saving a new document runs the schema's validation, so an add whose
    trimmed title is empty, or whose category or type is not listed, fails
    with 500 and changes nothing.
  - Updating does not run the schema's validators. It does apply the
    title's trim setter. So an update can store a category outside the
    enumeration (`UpdateSkipsEnumerations`). It can also store an empty
    title: a title of white space only is truthy, passes the controller's
    checks and trims to `""` (`UpdateStoresBlankTitle`).
  - The store's invariant covers what both paths guarantee: each document
    is stored under its own id, its amount is positive, its owner is
    non-empty and its title is trimmed. It does not promise a non-empty
    title or listed category and type, which updates do not keep.
- `filtering.dfy` (module `Filtering`) models the dashboard's `applyFilters`
  as four stages over the fetched list (`Entry`, whose date is the ISO text
  the server sends). It proves:
  - the filtered list is exactly the matching entries, in their original
    order;
  - the stages may run in any order.
- `summary.dfy` (module `Summary`) models `calculateSummary`:
  - the total and the Need and Want totals;
  - the zero-total guard on the percentages.
- `dashboard.dfy` (module `DashboardPage`) models the component state as the
  class `Dashboard`.
  - It holds the list, the filtered list, the filters, the form, the form's
    visibility and the expense being edited.
  - `Settled()` says the filtered list matches the list and the filters.
    The effect that re-runs the filter after a change is folded into the
    methods that change the list or the filters.
- `expense_card.dfy` (module `ExpenseCard`) models the card's two colour
  lookups.

The schema's `type` field is called `kind`, because `type` is a Dafny
keyword.

Representation choices:

- **Amounts** are exact `real`s.
- **Server dates** are day numbers.
- **Request fields:** a missing or empty text field is `""`. A missing,
  null or NaN number is `None`, so JavaScript's truthiness is
  `AmountTruthy`.
- **Two browser functions** are constants of `Dashboard`, fixed when it is
  constructed: `new Date(text)` is `dateKey`, and `amount.toString()` is
  `formatAmount`.

## Model

| member | source | states |
|---|---|---|
| `Schema.IsSpace` | server/models/Expense.js:7 | the characters JavaScript's `trim` removes: tab, line feed, vertical tab, form feed, carriage return, the Unicode space separators, the line and paragraph separators and the byte-order mark |
| `Schema.TrimStart` | server/models/Expense.js:7 | the result is a suffix of the input, what was dropped is all white space, and the result does not start with white space |
| `Schema.TrimEnd` | server/models/Expense.js:7 | the result is a prefix of the input, what was dropped is all white space, and the result does not end with white space |
| `Schema.Trim` | server/models/Expense.js:7 | the stored title has no white space at either end and is no longer than the input |
| `Schema.TrimDropsOnlySpace` | server/models/Expense.js:7 | the trimmed title is the contiguous slice of the input between a run of leading and a run of trailing white space; nothing else is removed |
| `Schema.TrimmedIsFixed` | server/models/Expense.js:7 | a string with no white space at its ends is unchanged by trimming |
| `Schema.TrimIdempotent` | server/models/Expense.js:7 | trimming twice equals trimming once |
| `Schema.SchemaValid` | server/models/Expense.js:3-34 | the schema's constraints: required non-empty title and owner, a trimmed title, an amount of at least 0, one of the ten categories and type Need or Want |
| `Schema.ValidDocument` | server/models/Expense.js:3-34 | a valid document has one of the ten categories, type Need or Want, a non-negative amount, a non-empty title and owner, and a title that trimming leaves unchanged |
| `Schema.PositiveAmountMeetsSchema` | server/models/Expense.js:9-13 | with a strictly positive amount (the controller's check), schema validity depends only on the other fields |
| `ExpenseService.Status.Code` | server/controllers/expenseController.js:9 | the HTTP status sent with each reply; 2xx exactly for success and creation (used by the list and delete handlers' contracts) |
| `ExpenseService.AmountTruthy` | server/controllers/expenseController.js:37-42 | JavaScript truthiness of the amount: missing, null, NaN and 0 are falsy |
| `ExpenseService.FieldsPresent` | server/controllers/expenseController.js:84 | the truthiness guard of the update handler: every one of the five fields is truthy |
| `ExpenseService.ValidateFields` | server/controllers/expenseController.js:84-96 | accepts exactly when all five fields are truthy and the amount is positive; a missing field or an amount of 0 gives "All fields are required"; every field present with a negative amount gives "Amount must be greater than 0"; category and type are not checked against the enumerations |
| `ExpenseService.ValidateAdd` | server/controllers/expenseController.js:37-49 | a missing userEmail gives "All fields are required"; with a userEmail the verdict, message included, is the update check's; an accepted request carries a positive amount and a date |
| `ExpenseService.Draft` | server/controllers/expenseController.js:51-58 | the new document carries the given id and owner, the trimmed given title, and the given amount, category, type and date |
| `ExpenseService.Revise` | server/controllers/expenseController.js:98-102 | an update overwrites title (trimmed), amount, category, type and date, and keeps the id and userEmail |
| `ExpenseService.DraftValidity` | server/controllers/expenseController.js:51-60 | an accepted add builds a schema-valid document exactly when its trimmed title is non-empty and its category and type are listed |
| `ExpenseService.UpdateSkipsEnumerations` | server/controllers/expenseController.js:84-102 | an update that passes every controller check can turn a valid document into one whose category is not listed |
| `ExpenseService.UpdateStoresBlankTitle` | server/controllers/expenseController.js:84-102 | an update whose title is white space only passes every controller check and stores an empty title, which the schema's `required` forbids |
| `ExpenseService.InsertionPoint` | server/controllers/expenseController.js:15 | the position in a newest-first list after every strictly newer document and before every other |
| `ExpenseService.InsertKeepsOrder` | server/controllers/expenseController.js:15 | inserting at that position keeps the list newest first and, for a new id, keeps ids distinct |
| `ExpenseService.InsertKeepsDistinct` | server/controllers/expenseController.js:15 | inserting a document whose id is not yet in a list of distinct ids, at any position, keeps the ids distinct |
| `ExpenseService.ExpenseStore.Valid` | server/models/Expense.js:3-34 | every document is stored under its own id, below the next fresh id, with a positive amount, a non-empty owner and a trimmed title |
| `ExpenseService.ExpenseStore.constructor` | server/models/Expense.js:36 | the collection starts empty and a valid store |
| `ExpenseService.ExpenseStore.GetExpenses` | server/controllers/expenseController.js:4-29 | a missing user gives 400 "User email is required" and an empty list; otherwise 200 and exactly the owner's documents, each once, dates non-increasing; the store is not changed |
| `ExpenseService.ExpenseStore.AddExpense` | server/controllers/expenseController.js:32-75 | 400 with the controller's message when a field is missing or the amount is not positive; 500 and no change when the schema rejects the document; otherwise 201 and exactly one new schema-valid document under a fresh id, with every other document unchanged |
| `ExpenseService.ExpenseStore.UpdateExpense` | server/controllers/expenseController.js:78-124 | 400 and no change on a failed check (userEmail not required); 404 and no change for an unknown id; otherwise 200 and only that document's five fields change |
| `ExpenseService.ExpenseStore.DeleteExpense` | server/controllers/expenseController.js:127-152 | removes exactly the document with that id and answers 200, or answers 404 and changes nothing |
| `ExpenseService.DeleteTwice` | server/controllers/expenseController.js:131-143 | deleting the same id twice: the first reply is 200 exactly when the id existed, and the second is always 404 |
| `ExpenseService.AddThenList` | server/controllers/expenseController.js:4-75 | after a successful add, listing that owner's documents shows the new document exactly once, with its amount as given and an id that was not in use |
| `Filtering.Keep` | expense/src/pages/Dashboard.jsx:66 | the kept elements are exactly those satisfying the predicate, each as often as in the input |
| `Filtering.KeepIsSubsequence` | expense/src/pages/Dashboard.jsx:62-81 | a filtered list is a subsequence of its input, so relative order is preserved |
| `Filtering.KeepKeep` | expense/src/pages/Dashboard.jsx:65-79 | filtering by one predicate and then another equals filtering once by their conjunction |
| `Filtering.RunStage` | expense/src/pages/Dashboard.jsx:65-79 | one guarded step of `applyFilters`: when its filter field is set, the list is narrowed by that field's test |
| `Filtering.RunStageIsKeep` | expense/src/pages/Dashboard.jsx:65-79 | a stage with an empty field keeps everything; otherwise it keeps what its test admits |
| `Filtering.PipelineIsConjunction` | expense/src/pages/Dashboard.jsx:65-79 | running stages in sequence, in any order, is one filter by the conjunction of the stages |
| `Filtering.ApplyFilters` | expense/src/pages/Dashboard.jsx:62-81 | the category, type, from-date and to-date filters applied one after another, each only when its field is non-empty |
| `Filtering.ApplyFiltersIsPipeline` | expense/src/pages/Dashboard.jsx:62-81 | `applyFilters`'s four filter steps are the stage pipeline in the order category, type, from-date, to-date |
| `Filtering.ApplyFiltersIsKeep` | expense/src/pages/Dashboard.jsx:62-81 | the filtered list is the input restricted to entries matching every non-empty filter |
| `Filtering.FilterSoundComplete` | expense/src/pages/Dashboard.jsx:65-79 | an entry is shown iff it is in the list and has the filtered category and type and a date within both bounds that are set; multiplicities and order are kept |
| `Filtering.StageOrderIrrelevant` | expense/src/pages/Dashboard.jsx:65-79 | any order of the four stages gives the same list as `applyFilters`'s order |
| `Filtering.TwoFiltersCommute` | expense/src/pages/Dashboard.jsx:65-71 | category and type filters together equal either one applied after the other, in both orders |
| `Filtering.NoFiltersShowAll` | expense/src/pages/Dashboard.jsx:63-79 | with all four filter fields empty the whole list is shown |
| `Summary.Total` | expense/src/pages/Dashboard.jsx:199 | the sum of the amounts: 0 for an empty list, never negative when no amount is |
| `Summary.OfKind` | expense/src/pages/Dashboard.jsx:200-201 | the callback `e => e.type === kind` |
| `Summary.KindTotal` | expense/src/pages/Dashboard.jsx:200-201 | the sum of the amounts of one type, never negative when no amount of that type is |
| `Summary.Percentage` | expense/src/pages/Dashboard.jsx:207-208 | 0 when the total is not positive, otherwise the share of the part in the total, in percent |
| `Summary.Summarize` | expense/src/pages/Dashboard.jsx:198-210 | the total is the sum of all amounts, the Need and Want totals are the sums over entries of that type, and each percentage is that type's `Percentage` of the total, so both are 0 when the total is not positive |
| `Summary.NeedsPlusWants` | expense/src/pages/Dashboard.jsx:199-201 | when every entry is Need or Want, the Need total plus the Want total is the total |
| `Summary.KindTotalBounded` | expense/src/pages/Dashboard.jsx:199-201 | with no negative amount, each type's total lies between 0 and the total |
| `Summary.SummaryTotals` | expense/src/pages/Dashboard.jsx:199-205 | the summary's total is the sum of the filtered amounts and is split exactly into the Need and Want totals |
| `Summary.SharesAddUp` | expense/src/pages/Dashboard.jsx:207-208 | two parts that make up a positive total have percentages adding to 100 |
| `Summary.PercentagesAddUp` | expense/src/pages/Dashboard.jsx:207-208 | with a positive total the Need and Want percentages add up to 100 |
| `Summary.TwoEntryExample` | expense/src/pages/Dashboard.jsx:198-210 | a Need of 10 and a Want of 30 give total 40, Need 10 (25 percent) and Want 30 (75 percent) |
| `DashboardPage.BeforeT` | expense/src/pages/Dashboard.jsx:158 | the result is the longest prefix without a 'T'; the character after it, if any, is 'T' |
| `DashboardPage.BeforeTOfTimestamp` | expense/src/pages/Dashboard.jsx:158 | an ISO timestamp is cut to its calendar-date part |
| `DashboardPage.Dashboard.Settled` | expense/src/pages/Dashboard.jsx:41-43 | the effect's outcome: the filtered list is `applyFilters` of the current list and filters |
| `DashboardPage.Dashboard.constructor` | expense/src/pages/Dashboard.jsx:7-26 | the initial state: empty lists, no filters, empty hidden form, nothing being edited |
| `DashboardPage.Dashboard.ApplyFilters` | expense/src/pages/Dashboard.jsx:62-82 | the filtered list becomes the filter of the list by the current filters, and nothing else changes |
| `DashboardPage.Dashboard.CalculateSummary` | expense/src/pages/Dashboard.jsx:198-210 | the summary of the filtered list; once the list is settled, the summary of what the current filters let through |
| `DashboardPage.Dashboard.ReceiveExpenses` | expense/src/pages/Dashboard.jsx:41-51 | a fetched list replaces the list and the filtered list follows it |
| `DashboardPage.Dashboard.HandleFilterChange` | expense/src/pages/Dashboard.jsx:84-89 | the named filter field takes the value, the other three keep theirs, and the filtered list follows |
| `DashboardPage.Dashboard.ClearFilters` | expense/src/pages/Dashboard.jsx:91-98 | all four filter fields become empty and the filtered list becomes the whole list |
| `DashboardPage.Dashboard.HandleFormChange` | expense/src/pages/Dashboard.jsx:100-105 | the named form input takes the value and the other four keep theirs |
| `DashboardPage.Dashboard.HandleEdit` | expense/src/pages/Dashboard.jsx:151-161 | the form gets the expense's title, category and type verbatim, its formatted amount and the date text before the first 'T'; the form is shown and that expense is being edited |
| `DashboardPage.Dashboard.ResetForm` | expense/src/pages/Dashboard.jsx:186-196 | all five form inputs become empty, the form is hidden and nothing is being edited |
| `DashboardPage.ClearTwice` | expense/src/pages/Dashboard.jsx:91-98 | clearing twice leaves the same filters and filtered list as clearing once; it may change only those two fields, so the list, the form, its visibility and the edited expense stay as they were |
| `ExpenseCard.CategoryColor` | expense/src/components/ExpenseCard.jsx:6-20 | never empty; the default exactly for 'Tools' and for every value outside the ten categories |
| `ExpenseCard.CategoryColorListed` | expense/src/components/ExpenseCard.jsx:7-18 | each of the ten categories maps to its listed class string, and only 'Tools' maps to the default's string |
| `ExpenseCard.TypeColor` | expense/src/components/ExpenseCard.jsx:22-24 | green exactly for 'Need', orange for every other value including 'Want' |

## Left out

- Network and browser I/O are not modelled: `fetch`, JSON parsing, `localStorage`, `window.confirm` and `navigate`. Nor are the submit and delete handlers (`handleSubmit`, `handleDelete`). They call the API, set the message banner and refetch, and a successful submit then calls `resetForm` (modelled as `DashboardPage.Dashboard.ResetForm`). The ordering of the asynchronous refetch after a change is not modelled either.
- Database internals are replaced by the map store: casting and connection errors, which answer 500, and the `createdAt`/`updatedAt` timestamps. The only 500 path modelled is the schema rejecting a new document on save.
- Ids are natural numbers. A malformed id string, which the database answers with a cast error (500) rather than 404, is not modelled.
- Request fields of unexpected JSON types are not modelled: an amount sent as a string, or a repeated `user` query parameter.
- Floating point is not modelled. Amounts are exact reals, and the percentages are exact quotients rather than `toFixed(1)` strings. The currency formatting `toFixed(2)` is not modelled.
- Date parsing and display are constants: `new Date(text)` is `dateKey` and `amount.toString()` is `formatAmount`. An invalid date, which compares false both ways in JavaScript, is not modelled, and neither is `toLocaleDateString`.
- `ExpenseService.ExpenseStore.GetExpenses` does not fix the order of documents that share a date. The database leaves that order unspecified.
- `ExpenseCard.CategoryColor` returns the default for every value outside the table. In JavaScript, an inherited property name such as `constructor` would instead yield a truthy function.
- `DashboardPage.Dashboard.HandleFilterChange` and `DashboardPage.Dashboard.HandleFormChange` accept only the four filter names and the five form inputs. The filter bar and form components that send these events are not part of this model.
- Rendering is not modelled: JSX, the loading flag, the message banner, the add-form toggle button and the expense count card.
- The application wiring is not part of this model: the server bootstrap, route registration, the router, the navigation bar and authentication.
- Concurrent requests are not modelled: the database's last write wins.
