# Stock Vault Graph — a Dafny model of the inventory dashboard's logic

Stock Vault Graph is a React inventory dashboard. It has pages for products, categories, stock movements, companies, reports and a dashboard. It has modal forms that create products, categories and companies and that adjust stock. A small notification store holds application notices.

This project models the decisions those components make:
- which rows a page shows, and in what order;
- how a product's stock status is derived;
- what a form accepts and which messages it records;
- what record a form sends to its service;
- how the notification store changes under each action.

The model is organised as one module per component:

| module | component |
|---|---|
| `StatusBadge` | `src/components/molecules/StatusBadge.jsx` |
| `Products` | `src/components/pages/Products.jsx` |
| `StockMovements` | `src/components/pages/StockMovements.jsx` |
| `Reports` | `src/components/pages/Reports.jsx` |
| `Dashboard` | `src/components/pages/Dashboard.jsx` |
| `Categories` | `src/components/pages/Categories.jsx` |
| `Companies` | `src/components/pages/Companies.jsx` |
| `ProductTable` | `src/components/organisms/ProductTable.jsx` |
| `AddProductModal` | `src/components/organisms/AddProductModal.jsx` |
| `AddCompanyModal` | `src/components/organisms/AddCompanyModal.jsx` |
| `AddCategoryModal` | `src/components/organisms/AddCategoryModal.jsx` |
| `StockAdjustmentModal` | `src/components/organisms/StockAdjustmentModal.jsx` |
| `NotificationSlice` | `src/store/notificationSlice.js` |

Five shared modules support them:
- `Wrappers` holds `Option`.
- `Records` holds the rows the services deliver.
- `Text` holds the JavaScript string and number built-ins the components call, on ASCII text:
  - `trim` and `toLowerCase`;
  - `includes`;
  - `parseInt` and `parseFloat` in base ten;
  - `Number` of decimal text;
  - `String` of an integer;
  - `NaN` is `None`.
- `Seqs` holds `filter`, `find`, `findIndex` and `slice`.
- `Sorting` holds one in-place insertion sort over an `array`. It realises every `Array.prototype.sort` the components call, ordered by a numeric or string key. Like the language's own sort, it is stable.

The form of each module follows its source:
- Derived values computed during render become functions. They are stated against their inputs, with lemmas relating them to each other.
- A piece of component state updated by handlers becomes a class. Its handlers are methods with `modifies` clauses that state the whole new state:
  - `ProductTable.SortHeaders`;
  - `Companies.CompaniesPage`;
  - the four modal form states;
  - `NotificationSlice.NotificationStore`.
- Code that reassigns a local step by step becomes a method proved against a specification function:
  - the chained `filter` effects in Products.jsx and StockMovements.jsx, one stage per `if`;
  - `validateForm`'s step-by-step map building.
- The `sort` calls run the in-place insertion sort, whose loops carry the invariants.
- Services are parameters:
  - record stores are sequences passed in;
  - a service call's outcome is a `bool` argument (`accepted`, `createSucceeds`, `success`, `resultTruthy`);
  - `window.confirm` is the argument `confirmed`.
- The clock appears only as the cut-off instants the date filters receive (`StockMovements.Cutoffs`, `Reports`' `sevenDaysAgo`).
- Timestamps are integers; larger is later.

## Model

| member | source | states |
|---|---|---|
| StatusBadge.GetStatus | src/components/molecules/StatusBadge.jsx:5-25 | Out of Stock exactly when the quantity is 0; Low Stock exactly when non-zero and at most the reorder point; In Stock exactly when non-zero and above it |
| StatusBadge.ExactlyOneStatus | src/components/molecules/StatusBadge.jsx:5-25 | every quantity gets exactly one of the three badges, and the three badges are distinct |
| StatusBadge.ZeroIsOutOfStock | src/components/molecules/StatusBadge.jsx:6-11 | a zero quantity is Out of Stock with the 'danger' variant, whatever the reorder point |
| StatusBadge.BoundaryIsLowStock | src/components/molecules/StatusBadge.jsx:12-17 | a non-zero quantity equal to the reorder point is Low Stock (the comparison is inclusive) |
| StatusBadge.InStockIsUpwardClosed | src/components/molecules/StatusBadge.jsx:12-23 | raising a positive In Stock quantity keeps it In Stock |
| Products.CategoryNameIsFirstMatch | src/components/pages/Products.jsx:40-46 | a product's category label is the name of the first category with its id, or 'Uncategorized' when that name is empty |
| Products.CategoryNameWhenMissing | src/components/pages/Products.jsx:41-44 | with no category of that id the label is 'Uncategorized' |
| Products.JoinCategories | src/components/pages/Products.jsx:40-46 | one row per product, in order, each holding its product and that product's category label |
| Products.FilterProducts | src/components/pages/Products.jsx:63-91 | the staged search, status and category filters equal one filter by the conjunction of the three tests; the result is an order-preserving subsequence |
| Products.NoFilterKeepsAll | src/components/pages/Products.jsx:64-88 | empty search, 'all' status and 'all' category show every row |
| Products.CategoryOptionKeepsItsProducts | src/components/pages/Products.jsx:86-88 | choosing the option rendered from a category id keeps exactly that category's products |
| Products.StatusFiltersAgreeWithBadge | src/components/pages/Products.jsx:76-83 | for non-negative quantity and reorder point, each status option keeps exactly the products whose badge shows that status |
| Products.NegativeQuantityIsInNoStatus | src/components/pages/Products.jsx:78-80 | a negative quantity at or below the reorder point is badged Low Stock yet passes none of the three status filters |
| Products.ZeroQuantityBelowNegativeReorderPoint | src/components/pages/Products.jsx:78-80 | quantity 0 with a negative reorder point passes both the in-stock and the out-of-stock filters |
| Products.DeleteRequest | src/components/pages/Products.jsx:103-113 | a delete is requested exactly when confirmed, and for that product's id |
| StockMovements.JoinProduct | src/components/pages/StockMovements.jsx:35-42 | each row keeps its movement; the product name and SKU come from the first product with that id, with 'Unknown Product' and 'N/A' for missing values |
| StockMovements.UnknownProductLabels | src/components/pages/StockMovements.jsx:36-40 | a movement whose product is not loaded shows 'Unknown Product' and 'N/A' |
| StockMovements.JoinProducts | src/components/pages/StockMovements.jsx:35-42 | one row per movement, in order |
| StockMovements.DescendingTimestampsAreNewestFirst | src/components/pages/StockMovements.jsx:45 | sorting by timestamp descending is the same as every earlier row being no older than every later one |
| StockMovements.LoadMovements | src/components/pages/StockMovements.jsx:35-49 | the loaded rows are a rearrangement of the joined rows, newest first; rows with the same timestamp keep their joined order |
| StockMovements.SameInstantKeepsFetchedOrder | src/components/pages/StockMovements.jsx:45 | when every movement has the same timestamp, the load returns the rows in their fetched order |
| StockMovements.DateCutoff | src/components/pages/StockMovements.jsx:80-96 | a cut-off applies exactly for 'today', 'week' and 'month' |
| StockMovements.FilterMovements | src/components/pages/StockMovements.jsx:62-106 | the staged search, type and date filters equal one filter by the conjunction; the result is an order-preserving subsequence and stays newest first |
| StockMovements.TypeFilterKeepsThatType | src/components/pages/StockMovements.jsx:75-77 | a type option keeps exactly the movements of that type; 'all' keeps every one |
| StockMovements.DateFilterKeepsFromCutoff | src/components/pages/StockMovements.jsx:80-103 | 'today', 'week' and 'month' keep exactly the movements at or after their cut-off; any other value keeps every movement |
| Reports.Summary | src/components/pages/Reports.jsx:48-51 | the total is the product count, and low-stock plus out-of-stock never exceeds it |
| Reports.LowAndOutOfStockAreDisjoint | src/components/pages/Reports.jsx:50-51 | no low-stock item is also out of stock |
| Reports.Activity | src/components/pages/Reports.jsx:54-57 | the net change is received minus issued, and the transaction count is at most the number of movements |
| Reports.RecentMeansAtOrAfterCutoff | src/components/pages/Reports.jsx:54-55 | the recent movements are exactly those at or after seven days ago, in their original order |
| Reports.ReceivedPlusIssuedIsTotal | src/components/pages/Reports.jsx:55-57 | when every recent movement is IN or OUT, received plus issued is the sum of all recent quantities |
| Reports.AllEntries | src/components/pages/Reports.jsx:60-70 | one breakdown entry per category, in order |
| Reports.CategoryBreakdown | src/components/pages/Reports.jsx:60-71 | only categories with products appear, each with a positive product count |
| Reports.BreakdownEntriesDescribeTheirCategory | src/components/pages/Reports.jsx:60-71 | the breakdown is a subsequence of all entries, and each of its entries is the product count and quantity total of some category |
| Reports.CategoriesWithProductsAppear | src/components/pages/Reports.jsx:60-71 | every category with at least one product has its entry in the breakdown |
| Dashboard.LatestMovements | src/components/pages/Dashboard.jsx:27 | the first ten movements, or all of them when there are fewer |
| Dashboard.StatCards | src/components/pages/Dashboard.jsx:43-46 | the total is the product count, and the low-stock and out-of-stock counts fit within it |
| Dashboard.LowStockAlerts | src/components/pages/Dashboard.jsx:142 | at most five alerts: the first low-stock products, in order |
| Dashboard.MissingProductIsUnknown | src/components/pages/Dashboard.jsx:175-191 | a movement whose product is not loaded is labelled 'Unknown Product' |
| Dashboard.QuantitySign | src/components/pages/Dashboard.jsx:200 | '+' exactly for IN movements, '-' for every other type |
| Dashboard.StockRulesAgree | src/components/pages/Dashboard.jsx:45-46 | the dashboard's low and out-of-stock tests equal the report's and the product page's filters; on non-negative values they match the badge |
| Dashboard.CountsMatchReports | src/components/pages/Dashboard.jsx:45-46 | the dashboard's low and out-of-stock counts equal the report's |
| NotificationSlice.UpdateStatusKeepsShape | src/store/notificationSlice.js:23-29 | a status update keeps the length, every id and every message |
| NotificationSlice.UpdateStatusChangesFirstMatchOnly | src/store/notificationSlice.js:25-28 | only the first notification with the id gets the new status; all others are unchanged |
| NotificationSlice.UpdateStatusUnknownId | src/store/notificationSlice.js:26 | an id that is not present leaves the list unchanged |
| NotificationSlice.Unread | src/store/notificationSlice.js:53-54 | exactly the notifications whose status is 'Unread', in their order in the store |
| NotificationSlice.Read | src/store/notificationSlice.js:55-56 | exactly the notifications whose status is 'Read', in their order in the store |
| NotificationSlice.UnreadCount | src/store/notificationSlice.js:57-58 | the unread count never exceeds the number of notifications |
| NotificationSlice.ReadAndUnreadFitTheStore | src/store/notificationSlice.js:53-58 | the read and unread selections together never exceed the store |
| NotificationSlice.AddChangesUnreadCount | src/store/notificationSlice.js:20-58 | prepending a notification raises the unread count by one exactly when it is unread |
| NotificationSlice.NotificationStore.constructor | src/store/notificationSlice.js:3-7 | no notifications, not loading, no error |
| NotificationSlice.NotificationStore.SetLoading | src/store/notificationSlice.js:13-15 | sets the loading flag only |
| NotificationSlice.NotificationStore.SetNotifications | src/store/notificationSlice.js:16-19 | replaces the list and clears the error |
| NotificationSlice.NotificationStore.AddNotification | src/store/notificationSlice.js:20-22 | puts the payload in front of the list |
| NotificationSlice.NotificationStore.UpdateNotificationStatus | src/store/notificationSlice.js:23-29 | the list becomes the first-match status update of the old list |
| NotificationSlice.NotificationStore.SetError | src/store/notificationSlice.js:30-33 | records the error and stops loading |
| NotificationSlice.NotificationStore.ClearError | src/store/notificationSlice.js:34-36 | clears the error only |
| Categories.WithCounts | src/components/pages/Categories.jsx:33-39 | one row per category, in order, counting the products with that category id |
| Categories.CountIsZeroIffUnused | src/components/pages/Categories.jsx:34 | the count is zero exactly when no product has that category id |
| Categories.Search | src/components/pages/Categories.jsx:56-66 | an empty query shows every row; otherwise exactly the rows whose lowercased name or description contains the lowercased query, in order |
| Categories.SearchIgnoresCase | src/components/pages/Categories.jsx:58-61 | searching a query and its lowercase give the same rows |
| Categories.SearchForNameKeepsCategory | src/components/pages/Categories.jsx:58-61 | searching a category's own name finds that category |
| Categories.HandleDelete | src/components/pages/Categories.jsx:72-87 | refused exactly when the category has products; deleted exactly when it has none and the user confirms, by its id |
| Categories.DeletedCategoryIsUnused | src/components/pages/Categories.jsx:72-80 | a category that is deleted has no product pointing at it |
| Companies.IndustrySetMeaning | src/components/pages/Companies.jsx:103-106 | an industry is offered exactly when some company's trimmed, non-empty industry equals it |
| Companies.TrimmedIndustries | src/components/pages/Companies.jsx:103-106 | every element is non-empty and comes from some company; every company's non-empty trimmed industry appears |
| Companies.UniqueIndustries | src/components/pages/Companies.jsx:102-108 | strictly ascending (so without duplicates), and holding exactly the companies' non-empty trimmed industries |
| Companies.FilteredCompanies | src/components/pages/Companies.jsx:110-119 | exactly the companies matching both the search and the industry tests, in order |
| Companies.NoFilterShowsAll | src/components/pages/Companies.jsx:110-119 | an empty search and no industry show every company |
| Companies.IndustryOptionShowsItsCompanies | src/components/pages/Companies.jsx:102-119 | choosing the option made from a company's industry keeps that company |
| Companies.RemoveCompany | src/components/pages/Companies.jsx:77 | exactly the companies with another id, in order |
| Companies.CompaniesPage.constructor | src/components/pages/Companies.jsx:15-24 | no companies, none selected, list view shown |
| Companies.CompaniesPage.HandleDeleteCompany | src/components/pages/Companies.jsx:73-84 | a confirmed, successful delete removes the company, and closes its contacts view when it was selected; otherwise nothing changes |
| Companies.CompaniesPage.HandleViewContacts | src/components/pages/Companies.jsx:92-95 | selects the company and shows its contacts |
| Companies.CompaniesPage.HandleBackToCompanies | src/components/pages/Companies.jsx:97-100 | clears the selection and returns to the list |
| Companies.ViewThenBack | src/components/pages/Companies.jsx:92-100 | viewing contacts then going back returns to the list view with the list unchanged |
| ProductTable.Flip | src/components/organisms/ProductTable.jsx:20 | flipping always changes the direction |
| ProductTable.NextSort | src/components/organisms/ProductTable.jsx:18-25 | the clicked column becomes the sort column; the same column flips the direction, a new column starts ascending |
| ProductTable.ClickTwiceRestores | src/components/organisms/ProductTable.jsx:18-25 | clicking the current column twice restores the state |
| ProductTable.NewColumnThenAgainIsDescending | src/components/organisms/ProductTable.jsx:18-25 | clicking a new column twice sorts it descending |
| ProductTable.SortHeaders.constructor | src/components/organisms/ProductTable.jsx:15-16 | starts sorted by name, ascending |
| ProductTable.SortHeaders.HandleSort | src/components/organisms/ProductTable.jsx:18-25 | the state becomes the next sort state for the clicked column |
| ProductTable.SortedProducts | src/components/organisms/ProductTable.jsx:27-41 | a rearrangement of the rows, ordered in the chosen direction by the column's value, with strings compared lowercased |
| ProductTable.CaseDoesNotOrderNames | src/components/organisms/ProductTable.jsx:31-34 | names equal up to case are interchangeable in the order |
| AddProductModal.Set | src/components/organisms/AddProductModal.jsx:23-27 | the named field takes the value; every other field is kept |
| AddProductModal.BlankNameRule | src/components/organisms/AddProductModal.jsx:41-47 | the name and SKU rules fail exactly when the text is all whitespace |
| AddProductModal.CountRuleOnIntegers | src/components/organisms/AddProductModal.jsx:53-59 | on an integer's rendering, the quantity and reorder-point rules accept exactly the non-negative values |
| AddProductModal.PriceRuleOnIntegers | src/components/organisms/AddProductModal.jsx:61-67 | on an integer's rendering, the price rules accept exactly the positive values |
| AddProductModal.WhitespaceQuantityPassesUnparsed | src/components/organisms/AddProductModal.jsx:53-87 | a quantity of one space passes the rule but parses to no number |
| AddProductModal.CostPriceIsNotSent | src/components/organisms/AddProductModal.jsx:61-90 | the cost price is checked but never sent: changing it leaves the record unchanged |
| AddProductModal.ValidFormSendsNames | src/components/organisms/AddProductModal.jsx:41-84 | a valid form sends a non-empty name and SKU |
| AddProductModal.IntegerFieldsRoundTrip | src/components/organisms/AddProductModal.jsx:86-89 | fields holding integer renderings are sent back as those numbers, the selling price as the unit price |
| AddProductModal.RecordRule | src/components/organisms/AddProductModal.jsx:41-67 | each check keeps the message map in agreement with the rules checked so far |
| AddProductModal.AllChecksRecorded | src/components/organisms/AddProductModal.jsx:39-67 | after the last check the map agrees with every field's rule |
| AddProductModal.CollectErrors | src/components/organisms/AddProductModal.jsx:39-67 | the map holds a message for exactly the failing fields, each with that rule's message |
| AddProductModal.ProductFormState.constructor | src/components/organisms/AddProductModal.jsx:10-21 | the empty form, no messages, not loading |
| AddProductModal.ProductFormState.HandleInputChange | src/components/organisms/AddProductModal.jsx:23-36 | sets the field and blanks its message when one was shown; other messages are kept |
| AddProductModal.ProductFormState.ValidateForm | src/components/organisms/AddProductModal.jsx:38-71 | records exactly the failing rules' messages, and answers valid exactly when there are none |
| AddProductModal.ProductFormState.HandleClose | src/components/organisms/AddProductModal.jsx:103-116 | the empty form and no messages |
| AddProductModal.ProductFormState.HandleSubmit | src/components/organisms/AddProductModal.jsx:73-101 | sends exactly when the form is valid, the trimmed and parsed record; an invalid form keeps its text and shows exactly the failing rules' messages; a valid one leaves no messages even when the create fails; a successful create resets the form; an invalid form leaves loading as it was, and after a sent request loading ends |
| AddCompanyModal.Set | src/components/organisms/AddCompanyModal.jsx:42-47 | the named field takes the value; every other field is kept |
| AddCompanyModal.InitialForm | src/components/organisms/AddCompanyModal.jsx:21-37 | a new company opens blank; an edited one opens with its fields, missing ones as empty text |
| AddCompanyModal.ValidMeansNoFieldError | src/components/organisms/AddCompanyModal.jsx:57-70 | the form is valid exactly when no field rule fails |
| AddCompanyModal.RequestFor | src/components/organisms/AddCompanyModal.jsx:83-87 | an update of the edited company's id when editing, otherwise a create; either way the form as typed |
| AddCompanyModal.PaddedNameIsSentPadded | src/components/organisms/AddCompanyModal.jsx:60-86 | a name with surrounding spaces passes and is sent with its spaces |
| AddCompanyModal.CompanyFormState.constructor | src/components/organisms/AddCompanyModal.jsx:9-16 | the blank form, no messages, not loading, no company |
| AddCompanyModal.CompanyFormState.Open | src/components/organisms/AddCompanyModal.jsx:21-40 | opening fills the form from the edited company, or blank, and clears messages |
| AddCompanyModal.CompanyFormState.HandleChange | src/components/organisms/AddCompanyModal.jsx:42-55 | sets the field and blanks its message when one was shown |
| AddCompanyModal.CompanyFormState.ValidateForm | src/components/organisms/AddCompanyModal.jsx:57-70 | records exactly the failing rules' messages, and answers valid exactly when there are none |
| AddCompanyModal.CompanyFormState.SubmitBegin | src/components/organisms/AddCompanyModal.jsx:72-87 | records exactly the failing rules' messages of the form; a request exists exactly when there are none, and then loading is on |
| AddCompanyModal.CompanyFormState.SubmitFinish | src/components/organisms/AddCompanyModal.jsx:89-96 | calls onSuccess exactly when the service returned a truthy result; loading ends |
| AddCompanyModal.CompanyFormState.HandleClose | src/components/organisms/AddCompanyModal.jsx:99-103 | closes exactly when not loading |
| AddCompanyModal.CannotCloseWhileSaving | src/components/organisms/AddCompanyModal.jsx:79-103 | while a valid submit is in flight, the close button does nothing |
| AddCategoryModal.Set | src/components/organisms/AddCategoryModal.jsx:17-21 | the named field takes the value; the other is kept |
| AddCategoryModal.ValidFormSendsText | src/components/organisms/AddCategoryModal.jsx:35-59 | a valid form sends a non-empty name and description |
| AddCategoryModal.CategoryDataIsTrimmed | src/components/organisms/AddCategoryModal.jsx:56-59 | the sent texts are already trimmed |
| AddCategoryModal.BlankRule | src/components/organisms/AddCategoryModal.jsx:35-41 | a field's rule fails exactly when the text is all whitespace |
| AddCategoryModal.CategoryFormState.constructor | src/components/organisms/AddCategoryModal.jsx:10-15 | the empty form, no messages, not loading |
| AddCategoryModal.CategoryFormState.HandleInputChange | src/components/organisms/AddCategoryModal.jsx:17-30 | sets the field and blanks its message when one was shown |
| AddCategoryModal.CategoryFormState.ValidateForm | src/components/organisms/AddCategoryModal.jsx:32-45 | records exactly the failing rules' messages, and answers valid exactly when there are none |
| AddCategoryModal.CategoryFormState.HandleClose | src/components/organisms/AddCategoryModal.jsx:72-79 | the empty form and no messages |
| AddCategoryModal.CategoryFormState.HandleSubmit | src/components/organisms/AddCategoryModal.jsx:47-70 | sends exactly when the form is valid, the trimmed texts; an invalid form keeps its text and shows exactly the failing rules' messages; a valid one leaves no messages even when the create fails; a successful create resets the form; an invalid form leaves loading as it was, and after a sent request loading ends |
| StockAdjustmentModal.ReasonsTable | src/components/organisms/StockAdjustmentModal.jsx:21-24 | five reasons for adding, six for removing; only 'Adjustment' and 'Other' are offered for both |
| StockAdjustmentModal.KindFor | src/components/organisms/StockAdjustmentModal.jsx:43 | IN exactly for adding, OUT exactly for removing |
| StockAdjustmentModal.SameMagnitudeEitherWay | src/components/organisms/StockAdjustmentModal.jsx:34-44 | adding and removing the same text record the same quantity; only the delta's sign differs |
| StockAdjustmentModal.CountIsRecorded | src/components/organisms/StockAdjustmentModal.jsx:29-44 | a count's rendering passes the guard and is recorded as that count |
| StockAdjustmentModal.ZeroPassesTheGuard | src/components/organisms/StockAdjustmentModal.jsx:29-44 | '0' passes the guard and records a movement of quantity 0 |
| StockAdjustmentModal.NegativeAddIsRecordedAsIn | src/components/organisms/StockAdjustmentModal.jsx:34-44 | adding '-5' records an IN movement of 5 |
| StockAdjustmentModal.BuildMovement | src/components/organisms/StockAdjustmentModal.jsx:41-47 | the product's id, IN exactly for adding, the absolute parsed quantity, and the reason and notes as entered |
| StockAdjustmentModal.InventoryStore.CreateMovement | src/components/organisms/StockAdjustmentModal.jsx:41-47 | an accepted write appends exactly that movement; products are never written |
| StockAdjustmentModal.AdjustmentForm.constructor | src/components/organisms/StockAdjustmentModal.jsx:15-19 | adding, empty quantity, reason and notes, not loading |
| StockAdjustmentModal.AdjustmentForm.SetAdjustmentType | src/components/organisms/StockAdjustmentModal.jsx:122-134 | changes the type only; the chosen reason is kept |
| StockAdjustmentModal.AdjustmentForm.SetReason | src/components/organisms/StockAdjustmentModal.jsx:165 | changes the reason only |
| StockAdjustmentModal.AdjustmentForm.SetQuantity | src/components/organisms/StockAdjustmentModal.jsx:153 | changes the quantity only |
| StockAdjustmentModal.AdjustmentForm.SetNotes | src/components/organisms/StockAdjustmentModal.jsx:183 | changes the notes only |
| StockAdjustmentModal.AdjustmentForm.HandleClose | src/components/organisms/StockAdjustmentModal.jsx:62-68 | back to adding with empty quantity, reason and notes |
| StockAdjustmentModal.AdjustmentForm.HandleSubmit | src/components/organisms/StockAdjustmentModal.jsx:26-60 | rejected exactly when quantity or reason is empty, and then nothing changes; otherwise one movement built from the form goes to the store, an accepted write resets the form, products are untouched, loading ends |
| StockAdjustmentModal.CloseTwice | src/components/organisms/StockAdjustmentModal.jsx:62-68 | closing twice leaves the form as closing once does |
| StockAdjustmentModal.ReasonIsNotRechecked | src/components/organisms/StockAdjustmentModal.jsx:29-170 | 'Sale' chosen while removing, then a switch to adding, submits an IN movement with reason 'Sale', which the add list does not offer |
| Text.ParseIntDecimalString | src/components/organisms/AddProductModal.jsx:86-88 | `parseInt` of an integer's rendering gives that integer back |
| Text.ToNumberDecimalString | src/components/organisms/AddProductModal.jsx:53-67 | `Number` of an integer's rendering gives that integer back |
| Text.ParseFloatDecimalString | src/components/organisms/AddProductModal.jsx:89 | `parseFloat` of an integer's rendering gives that number back |
| Text.TrimStartShape | src/components/organisms/AddProductModal.jsx:41 | `trim` drops exactly the leading whitespace: what is left is a suffix of the text that does not start with whitespace |
| Text.TrimEndShape | src/components/organisms/AddProductModal.jsx:41 | `trim` drops exactly the trailing whitespace: what is left is a prefix of the text that does not end with whitespace |
| Text.LowerChar | src/components/pages/Products.jsx:69 | `toLowerCase` maps 'A' to 'Z' to their lower-case letters and leaves every other character as it is |
| Text.ParseIntSignedDigits | src/components/pages/Products.jsx:87 | `parseInt` of an optional minus sign followed by digits is the signed value of those digits |
| Text.ToNumber | src/components/organisms/AddProductModal.jsx:53 | `Number` of empty or all-whitespace text is 0 |
| Text.ToNumberSignedDigits | src/components/organisms/AddProductModal.jsx:53-67 | `Number` of an optional minus sign followed by digits is the signed value of those digits |
| Text.LeadingDecimalValue | src/components/organisms/AddProductModal.jsx:89 | `parseFloat` finds no number exactly when the text after the sign starts with neither a digit nor a point followed by a digit |
| Text.IsBlankIffAllSpace | src/components/organisms/AddProductModal.jsx:41 | a text trims to empty exactly when it is all whitespace |
| Text.TrimIdempotent | src/components/organisms/AddCategoryModal.jsx:57-58 | trimming twice is trimming once |
| Text.LowerIdempotent | src/components/pages/Categories.jsx:59-60 | lowercasing twice is lowercasing once |
| Sorting.SortedCopy | src/components/organisms/ProductTable.jsx:27 | a sorted rearrangement of the input, which is left as it was |
| Sorting.SortInPlace | src/components/pages/StockMovements.jsx:45 | sorts the array in place: ordered by the key in the direction, holding the same elements; elements with equal keys keep their relative order, as the stable `Array.prototype.sort` does |
| Sorting.SwapKeepsTies | src/components/pages/StockMovements.jsx:45 | exchanging two neighbours with different keys leaves the order among equal keys unchanged |
| Sorting.FilterKeepsSorted | src/components/pages/StockMovements.jsx:62-106 | filtering a sorted list leaves it sorted |

## Left out

- Services (`src/services/api/*`): the record stores are sequences passed in. A service call's outcome is a `bool` argument. Fetching, the SDK, pagination and the server-side search in `companyService.getAll` are not part of this model.
- `categoryService.js` is not part of this model. Category rows are what it would deliver.
- Dashboard.StatCards: the money figure `totalValue` (a `reduce` of quantity times unit price) is left out. It is floating-point arithmetic shown through `toLocaleString`.
- Reports.CategoryBreakdown: each entry's `totalValue` is left out, for the same reason. Reports' top-products-by-value list is left out too.
- Reports.CategoryBreakdown: each entry's name reads the category field as a single `name`. The source reads `category.Name` here but `category.name` on the categories page.
- Field spelling: the product service asks for a `Name` field (src/services/api/productService.js:14), while some pages read `name`. The model has one name field per record. The SDK that shapes the records is not part of this model, so what actually arrives is unknown. If the records carry no `name`, the product search may throw when it calls `toLowerCase` on it (src/components/pages/Products.jsx:69). Sorting by the name column may then compare `undefined` values and leave the order unchanged (src/components/organisms/ProductTable.jsx:27-33). The model captures neither.
- Formatting: `toFixed`, `toLocaleString`, date formatting and icons are presentation only.
- Rendering, toasts, console logging, animation, loading spinners and the retry buttons are left out.
- Asynchrony is left out: each handler runs to completion.
  - AddCompanyModal is the exception: its submit is split at the `await` into `SubmitBegin` and `SubmitFinish`, so that the close guard on `loading` can be stated.
  - A service that throws is modelled as the outcome `false`.
- The clock: `new Date()`, `subDays`, `setHours`, `setDate` and `setMonth` become the cut-off instants a filter receives.
- Text.ParseInt: only base ten is modelled. Without a radix, JavaScript's `parseInt` reads a `0x` prefix as hexadecimal, so it reads '0x1A' as 26; the model reads it as 0.
- Text.ToNumber: only decimal text (an optional sign, digits, an optional fraction) is modelled. Exponents, hexadecimal, `Infinity` and values outside the platform's double range are not.
- Text.ParseFloat: exponents and `Infinity` are not modelled. Numbers are exact reals, not doubles.
- Text.Lower and Text.Trim: these are ASCII only. Unicode case mapping and Unicode whitespace are not modelled.
- Browser form validation is outside the model. The `required`, `min="1"` and `type="number"` attributes run before the submit handler, so the handler logic is modelled as if every string can reach it.
- Sorting.SortedCopy: it does not promise an order for equal keys. It models the product table sort, whose comparator never answers 0 (src/components/organisms/ProductTable.jsx:36-40), so the engine may put tied rows in any order. It also models the `sort()` of deduplicated industries, which has no ties.
- StockMovements.LoadMovements: the `new Date(...)` parse of timestamp strings is not modelled. Timestamps are integers.
- Companies.UniqueIndustries: `sort()` without a comparator orders by UTF-16 code units. The model compares characters by code, which agrees for the BMP text the model handles.
- Companies.CompaniesPage: `fetchContacts`, the add and edit modal switches (`handleAddCompany`, `handleEditCompany`, `handleModalSuccess`) and the contact list are left out. They only pass data to other components.
- Products and Categories: the edit handlers are left out. They only show a 'coming soon' toast.
- The adjustment modal's `handleStockAdjustmentSuccess` reload is left out. So are the reloads after a delete. Both call the load again.
- NotificationSlice.NotificationStore: the selectors for the whole list, loading and error are left out. They return a field unchanged.
