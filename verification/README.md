# Expense tracker core, modelled in Dafny

This project models the client-side logic of a personal expense tracker:

- the in-memory transaction store (`client/lib/expense-store.ts`): default
  catalogues, add / update / delete / query, and the period analytics;
- the decisions the pages and dialogs take on top of it:
  - the transaction list's search, filters and sort orders;
  - the add/edit dialog's tag editing and the record it hands to the store;
  - budget status, totals, creation and deletion;
  - goal contributions, counts, progress and creation;
  - the mock account service (login, sign-up, logout, profile and
    preference updates);
  - the sign-up and change-password validators;
  - the demo account's sample data;
  - the spending-by-category panel.

Every operation is a pure function from the old state to the new one. The
random id generator, the clock and `Math.random` become parameters. Amounts
are `real`. A record's `date` is a day number. Instants (now, `createdAt`,
`updatedAt`, window bounds) are milliseconds, and a record dated day `d`
sits at instant `d * 86400000`, the UTC midnight that `new Date("YYYY-MM-DD")`
yields.

Modules:

- `Types`: shared records, category and payment-method lookup, percentages.
- `Seqs`: filter and sum.
- `Sorting`: a stable insertion sort over a total preorder, standing for
  JavaScript's stable `Array.prototype.sort`.
- `Text`: lower-casing, `includes`, `trim`, and code-point order.
- `ExpenseStore` and `StoreAnalytics`: the store.
- `ExpenseList`, `ExpenseForm`, `Budgets`, `Goals`, `Auth`, `SignupPage`,
  `SettingsPage`, `SampleData`, `CategoryView`: the pages and components.

Two points about the store's data:

- `addExpense` puts a new record at the front of the store
  (`ExpenseStore.AddExpense`). `getExpenses` sorts by date, newest first
  (`ExpenseStore.GetExpenses`), so a new record heads a query result only
  when no record has a later date.
- The category `Map` of `getAnalytics` is modelled as a list of
  (id, amount) entries in insertion order. Each category share carries the
  map key `categoryId` in addition to the looked-up category. The lookup is
  an `Option`, because the source's non-null assertion does not stop a
  missing category from reaching the page.

## Model

| member | source | states |
|---|---|---|
| Types.Stamp | client/lib/expense-store.ts:64-69 | The stored record carries exactly the caller's fields plus the given id and timestamps. |
| Types.FindCategory | client/components/expense/AddExpenseModal.tsx:50 | The lookup fails exactly when no category has the id; a found category is in the list and has the id. |
| Types.FindMethod | client/components/expense/AddExpenseModal.tsx:51 | The lookup fails exactly when no payment method has the id; a found one is in the list and has the id. |
| Seqs.Filter | client/lib/expense-store.ts:105-128 | `Array.prototype.filter`: the result holds exactly the elements that pass, and is a sub-multiset of the input. |
| Seqs.FilterCount | client/lib/expense-store.ts:105-128 | The filter keeps every copy of an element that passes and no copy of one that fails. |
| Seqs.FilterNoDup | client/components/expense/AddExpenseModal.tsx:107 | Filtering a duplicate-free list leaves it duplicate-free. |
| Seqs.FilterPartitionCount | client/pages/Goals.tsx:197-198 | The elements that pass and the elements that fail together account for the whole list. |
| Seqs.SumDifference | client/pages/Budgets.tsx:176-178 | The sum of pointwise differences is the difference of the two sums. |
| Sorting.Sort | client/lib/expense-store.ts:130 | Sorting is a permutation of its input. |
| Sorting.SortSorted | client/lib/expense-store.ts:130 | Under a total preorder comparator the sort's result is ordered. |
| Sorting.SortStable | client/lib/expense-store.ts:130 | Elements that compare equal keep their input order, as the stable JavaScript sort guarantees. |
| Sorting.SortOfSorted | client/lib/expense-store.ts:176 | An already ordered list is left exactly as it is. |
| Text.ToLower | client/lib/expense-store.ts:122 | Lower-casing keeps the length and maps each letter A-Z to its lower-case form, leaving other characters alone. |
| Text.ToLowerIdempotent | client/lib/expense-store.ts:122 | Lower-casing twice is lower-casing once. |
| Text.ContainsMeansOccurs | client/lib/expense-store.ts:124-126 | `includes` holds exactly when the term occurs at some position of the text. |
| Text.Trim | client/components/expense/AddExpenseModal.tsx:95 | The trimmed text is a contiguous piece of the input with no white space at either end, and everything cut off before and after it is white space. |
| Text.TrimIdempotent | client/components/expense/AddExpenseModal.tsx:95-98 | Trimming a trimmed tag changes nothing. |
| Text.TrimBlank | client/components/expense/AddExpenseModal.tsx:95 | A tag of white space only trims to the empty, falsy string. |
| Text.LexLeTotal | client/components/dashboard/ExpenseList.tsx:61 | Any two category names are comparable under the name order. |
| Text.LexLeTransitive | client/components/dashboard/ExpenseList.tsx:61 | The name order is transitive. |
| ExpenseStore.DefaultCatalogues | client/lib/expense-store.ts:4-24 | The catalogues have 10 categories and 6 payment methods, and every entry is found by its own id. |
| ExpenseStore.IndexOf | client/lib/expense-store.ts:76 | `findIndex`: no position exactly when no record has the id; otherwise the first position with it. |
| ExpenseStore.AddExpense | client/lib/expense-store.ts:63-73 | The new record goes in front of all existing ones with the caller's fields, the fresh id and `now` as both timestamps; nothing else in the store changes. |
| ExpenseStore.Merge | client/lib/expense-store.ts:79-83 | Every field the patch carries takes the patch's value, every field it leaves out keeps the record's, and `updatedAt` becomes `now`. |
| ExpenseStore.MergeNoChange | client/lib/expense-store.ts:79-83 | An empty patch only refreshes `updatedAt`. |
| ExpenseStore.MergeIdempotent | client/lib/expense-store.ts:79-83 | Applying the same patch twice equals applying it once at the later time. |
| ExpenseStore.MergeAmount | client/lib/expense-store.ts:79-83 | A patch of the amount changes the amount and `updatedAt` and nothing else. |
| ExpenseStore.UpdateExpense | client/lib/expense-store.ts:75-86 | An unknown id returns null and leaves the store alone; otherwise the first record with the id is merged, its neighbours are unchanged, and the merged record is returned. |
| ExpenseStore.UpdateAmount | client/lib/expense-store.ts:75-86 | After an amount update the record has the new amount, the same id and creation time, and a later `updatedAt` when the clock moved on. |
| ExpenseStore.UpdateKeepsUnique | client/lib/expense-store.ts:79-83 | A patch that leaves the id alone keeps record ids unique. |
| ExpenseStore.DeleteExpense | client/lib/expense-store.ts:88-95 | The result is true exactly when some record has the id; then the first such record is cut out and the rest keep their order, else the store is unchanged. |
| ExpenseStore.DeleteRemovesOne | client/lib/expense-store.ts:92 | A delete removes exactly one copy of one record from the multiset of records. |
| ExpenseStore.AddThenDelete | client/lib/expense-store.ts:63-95 | Deleting the record just added succeeds and restores the previous store. |
| ExpenseStore.AddKeepsUnique | client/lib/expense-store.ts:66-70 | Adding under an id not yet in use keeps record ids unique. |
| ExpenseStore.DeleteTwice | client/lib/expense-store.ts:88-95 | With unique ids a deleted id is gone, so deleting it again returns false and changes nothing. |
| ExpenseStore.NewerFirstIsPreorder | client/lib/expense-store.ts:130 | The date comparator is a total preorder, so the sort is well defined. |
| ExpenseStore.GetExpenses | client/lib/expense-store.ts:97-131 | The result holds exactly the records matching every given filter, each as often as it is stored, newest date first. |
| ExpenseStore.GetExpensesStable | client/lib/expense-store.ts:130 | Records with the same date keep their store order in the result. |
| ExpenseStore.NoFiltersKeepsAll | client/lib/expense-store.ts:103-130 | With no filters the query returns every stored record. |
| ExpenseStore.SearchFindsCafe | client/lib/expense-store.ts:121-127 | Searching "café" finds a record titled "Lunch at café". |
| ExpenseStore.SearchSkipsDiner | client/lib/expense-store.ts:121-127 | Searching "café" skips "Lunch at diner" in "Food & Dining" with no description. |
| StoreAnalytics.WindowStart | client/lib/expense-store.ts:133-148 | A week starts seven days before now; the month and year starts are the ones the caller's clock supplies. |
| StoreAnalytics.Window | client/lib/expense-store.ts:150-152 | The period records are exactly the stored records whose date lies between the start and now. |
| StoreAnalytics.WindowSkips | client/lib/expense-store.ts:150-152 | A record dated outside the window does not change the period records. |
| StoreAnalytics.WindowAll | client/lib/expense-store.ts:150-152 | When every record is inside the window, the period records are all records in order. |
| StoreAnalytics.WeekWindow | client/lib/expense-store.ts:138-152 | The week covers today and the six days before; the day seven days back is in only when now is exactly midnight. |
| StoreAnalytics.AddTo | client/lib/expense-store.ts:166-167 | Setting a key keeps the key order and appends a key seen for the first time. |
| StoreAnalytics.AddToLookup | client/lib/expense-store.ts:166-167 | Adding to an entry raises the value read back for that key by the amount and leaves other keys alone. |
| StoreAnalytics.AddToSum | client/lib/expense-store.ts:166-167 | Adding to the map raises the sum of its values by the amount. |
| StoreAnalytics.TallyCorrect | client/lib/expense-store.ts:162-168 | The category map has distinct keys, exactly the categories with spend, for each the category's spend, and values summing to the total of expenses. |
| StoreAnalytics.LookupEntry | client/lib/expense-store.ts:171-173 | With distinct keys an entry's amount is what lookup returns for its key. |
| StoreAnalytics.SpendWithinTotal | client/lib/expense-store.ts:158-168 | With non-negative amounts a category's spend lies between 0 and the total of expenses. |
| StoreAnalytics.LargerFirstIsPreorder | client/lib/expense-store.ts:176 | The amount comparator is a total preorder. |
| StoreAnalytics.ShareOf | client/lib/expense-store.ts:171-175 | A share carries its key, amount and looked-up category, and its percentage is its amount's share of the total (non-negative for non-negative amounts). |
| StoreAnalytics.SharesOf | client/lib/expense-store.ts:170-175 | Every map entry becomes one share, in map order. |
| StoreAnalytics.PercentagesDefinedIff | client/lib/expense-store.ts:174 | Percentages are defined exactly when expenses total non-zero or the window has no expense record. |
| StoreAnalytics.Ranked | client/lib/expense-store.ts:170-176 | The ranked shares are ordered largest amount first and are a permutation of the map's shares. |
| StoreAnalytics.Top | client/lib/expense-store.ts:170-177 | At most five shares, largest first; each is a category with spend, carrying its spend, its category lookup and its percentage of total expenses. |
| StoreAnalytics.TopDistinct | client/lib/expense-store.ts:162-177 | No category is listed twice, because the shares come from the distinct keys of the category map. |
| StoreAnalytics.Analyze | client/lib/expense-store.ts:134-188 | Totals by type over the window, net balance as their difference, the savings rate, daily average as a thirtieth of expenses, an empty trend, and the top categories. |
| StoreAnalytics.SavingsRate | client/lib/expense-store.ts:186 | With income the rate is the net balance as a percentage of income; without income it is 0. |
| StoreAnalytics.SavingsRateSign | client/lib/expense-store.ts:186 | With income the rate is positive exactly when income exceeds expenses, negative exactly when expenses exceed income, and at most 100 for non-negative expenses. |
| StoreAnalytics.AnalyzeEmpty | client/lib/expense-store.ts:150-187 | An empty store gives all-zero figures and no categories. |
| StoreAnalytics.AddOutsideWindow | client/lib/expense-store.ts:150-152 | Adding a record dated outside the window leaves the whole summary unchanged. |
| StoreAnalytics.SameWindowSameSummary | client/lib/expense-store.ts:150-187 | The summary depends only on the period records and the categories. |
| StoreAnalytics.RankedAmountSum | client/lib/expense-store.ts:170-176 | The ranked amounts add up to the total of expenses. |
| StoreAnalytics.RankedPercentSum | client/lib/expense-store.ts:174 | When something was spent, the ranked percentages add up to exactly 100. |
| StoreAnalytics.RankedCovers | client/lib/expense-store.ts:170-176 | Every category with spend has a ranked share. |
| StoreAnalytics.RankedStable | client/lib/expense-store.ts:176 | Categories with equal spend keep the order in which they first appeared. |
| StoreAnalytics.TopWithinTotal | client/lib/expense-store.ts:170-177 | With non-negative amounts each listed amount, and their sum, is at most the total of expenses. |
| StoreAnalytics.TopPercentages | client/lib/expense-store.ts:174-177 | With non-negative amounts the listed percentages are non-negative and add up to at most 100. |
| StoreAnalytics.FewCategoriesAllListed | client/lib/expense-store.ts:177 | With at most five categories spent in, all are listed, their amounts make the total and their percentages 100. |
| StoreAnalytics.TopAreLargest | client/lib/expense-store.ts:176-177 | A category with spend is left out only when five categories each with at least its spend are listed. |
| StoreAnalytics.MonthExample | client/lib/expense-store.ts:154-186 | 1000 earned and 400 plus 100 spent give totals 1000 and 500, net 500 and a savings rate of 50. |
| StoreAnalytics.MonthExampleTop | client/lib/expense-store.ts:170-177 | In that month the 400 category is listed first at 80% and the 100 category second at 20%. |
| ExpenseList.OrderIsPreorder | client/components/dashboard/ExpenseList.tsx:54-65 | Each of the three comparators is a total preorder. |
| ExpenseList.Visible | client/components/dashboard/ExpenseList.tsx:41-68 | The list shows exactly the records that match the search and both filters, each as often as given, in the chosen key's order. |
| ExpenseList.SortByKey | client/components/dashboard/ExpenseList.tsx:54-65 | Sorting by any key orders the records by that key and keeps exactly the same records. |
| ExpenseList.VisibleStable | client/components/dashboard/ExpenseList.tsx:54-65 | Records equal under the chosen key keep their input order. |
| ExpenseList.NoFilterKeepsAll | client/components/dashboard/ExpenseList.tsx:42-51 | An empty search with both filters off shows every record. |
| ExpenseList.SearchAgreesWithStore | client/components/dashboard/ExpenseList.tsx:43-45 | The list's search keeps the same records as the store's search with the same term. |
| ExpenseForm.BlankForm | client/components/expense/AddExpenseModal.tsx:76-89 | The reset form: empty texts, type expense, not recurring, monthly, USD, no tags, today's date. |
| ExpenseForm.Close | client/components/expense/AddExpenseModal.tsx:75-92 | Closing resets the form and empties the tag input. |
| ExpenseForm.AddTag | client/components/expense/AddExpenseModal.tsx:94-102 | A non-blank trimmed tag not yet listed is appended and the input emptied; otherwise nothing changes. Other fields never change. |
| ExpenseForm.AddTagKeepsNoDup | client/components/expense/AddExpenseModal.tsx:95-98 | Adding keeps the tag list duplicate-free, and a new tag is non-empty with no surrounding white space. |
| ExpenseForm.RemoveTag | client/components/expense/AddExpenseModal.tsx:104-109 | Removing drops every occurrence of the tag and keeps every other tag; nothing else changes. |
| ExpenseForm.RemoveTagSplits | client/components/expense/AddExpenseModal.tsx:107 | Removing from a list of two parts removes from each part and keeps the parts in order, so the remaining tags keep their order. |
| ExpenseForm.RemoveTagKeepsNoDup | client/components/expense/AddExpenseModal.tsx:107 | Removing keeps the tag list duplicate-free. |
| ExpenseForm.AddThenRemove | client/components/expense/AddExpenseModal.tsx:94-109 | Removing a tag just added restores the tag list. |
| ExpenseForm.Optional | client/components/expense/AddExpenseModal.tsx:60 | Empty text becomes undefined; any other text is kept. |
| ExpenseForm.Submit | client/components/expense/AddExpenseModal.tsx:47-73 | Nothing happens unless both lookups succeed; otherwise the saved record carries the found category and method and the parsed amount, copies the title, date, type, currency, tags and recurring flag, turns an empty description or location into undefined and keeps any other text, carries the form's interval exactly when recurring, has no attachments, and the dialog is reset. |
| ExpenseForm.EditShowsBlankForm | client/components/expense/AddExpenseModal.tsx:30-43 | As written, opening a titled record on a freshly mounted dialog shows a blank title, and saving that form unchanged saves nothing, so the record is not handed back. |
| ExpenseForm.EditRoundTrip | client/components/expense/AddExpenseModal.tsx:30-73 | For a dialog whose form is filled in from the record, as its initial state reads it, saving unchanged hands back the record's own fields. |
| Budgets.StatusOf | client/pages/Budgets.tsx:115-125 | Exceeded exactly from 100% on, at risk exactly from the threshold up to 100%, on track exactly below both. |
| Budgets.StatusInMoney | client/pages/Budgets.tsx:115-125 | For a positive budget: exceeded exactly when spent reaches the amount, at risk exactly when spent reaches the threshold's share of it. |
| Budgets.StatusMonotone | client/pages/Budgets.tsx:115-125 | Spending more never gives a milder status. |
| Budgets.Progress | client/pages/Budgets.tsx:369-433 | The bar is at most 100, full exactly when the budget is exceeded, else the spent percentage. |
| Budgets.RemainingShown | client/pages/Budgets.tsx:442 | The remainder shown is never negative, is the true remainder when not overspent, and 0 when overspent. |
| Budgets.TotalsOf | client/pages/Budgets.tsx:176-178 | With no budgets all three figures are 0, and the remaining total is always budgeted minus spent. |
| Budgets.TotalsOne | client/pages/Budgets.tsx:176-177 | A single budget contributes its amount to the budgeted total and what was spent on it to the spent total. |
| Budgets.TotalsAppend | client/pages/Budgets.tsx:176-178 | The totals of two lists together are the sums of the two lists' totals, figure by figure, so each total is the sum over all budgets. |
| Budgets.RemainingIsSumOfRemainders | client/pages/Budgets.tsx:176-178 | The remaining total equals the sum of each budget's remainder. |
| Budgets.CreateBudget | client/pages/Budgets.tsx:127-166 | A missing field and then an unknown category each leave the page alone; otherwise a new active budget with nothing spent is appended and the form reset and closed. |
| Budgets.CreateTotals | client/pages/Budgets.tsx:152-177 | A new budget adds its amount to the budgeted total and nothing to the spent total. |
| Budgets.DeleteBudget | client/pages/Budgets.tsx:168-169 | Deleting keeps exactly the budgets with another id, in order. |
| Budgets.DeleteAbsent | client/pages/Budgets.tsx:169 | Deleting an id no budget has changes nothing. |
| Budgets.DeleteSplits | client/pages/Budgets.tsx:169 | Deleting from a joined list is deleting from each part. |
| Budgets.CreateThenDelete | client/pages/Budgets.tsx:140-169 | Creating under a fresh id and deleting that id restores the list. |
| Goals.Contribute | client/pages/Goals.tsx:175-189 | A contribution raises the saved amount, sets the completion flag to agree with it, and changes no other field. |
| Goals.Contributed | client/pages/Goals.tsx:172-193 | Every goal with the id gets the contribution and a consistent flag; all others are unchanged. |
| Goals.AddToGoal | client/pages/Goals.tsx:172-193 | Every goal with the id gains the amount, gets a completed flag that agrees with its amounts, and keeps its other fields; every other goal is unchanged; a title is announced exactly when its goal had the id, was not completed, and is completed afterwards. |
| Goals.AnnouncedExactly | client/pages/Goals.tsx:178-183 | A title is announced exactly when its goal goes from not completed to completed. |
| Goals.NothingAnnounced | client/pages/Goals.tsx:178 | Consistent goals given nothing announce nothing. |
| Goals.AddTwice | client/pages/Goals.tsx:173-192 | Two contributions in a row equal one contribution of their sum. |
| Goals.AddKeepsConsistent | client/pages/Goals.tsx:175-176 | Contributions keep every completion flag in agreement with the amounts; contributing 0 changes nothing. |
| Goals.AddChangesSaved | client/pages/Goals.tsx:196 | The total saved rises by the amount once per goal with the id. |
| Goals.AddKeepsTargets | client/pages/Goals.tsx:195 | A contribution leaves the total target unchanged. |
| Goals.CountsPartition | client/pages/Goals.tsx:197-198 | Completed and active counts add up to the number of goals. |
| Goals.Progress | client/pages/Goals.tsx:393-438 | The bar is at most 100; it is full exactly when the saved percentage reaches 100 and is that percentage otherwise, for a negative target too; for a positive target it is full exactly when the target is reached. |
| Goals.Remaining | client/pages/Goals.tsx:452 | The remainder shown is never negative, zero exactly when the target is reached, and otherwise what is missing. |
| Goals.CompletionViews | client/pages/Goals.tsx:438-452 | For a consistent goal with a positive target, a full bar, a zero remainder and the completed flag agree. |
| Goals.CreateGoal | client/pages/Goals.tsx:132-170 | A missing field leaves the page alone; otherwise a new goal with nothing saved and not completed is appended and the form reset and closed. |
| Goals.CreateCounts | client/pages/Goals.tsx:142-198 | A created goal adds one to the active count and none to the completed count. |
| Auth.Start | client/lib/auth-context.tsx:37-58 | The table starts with the demo account only, and nobody is signed in. |
| Auth.Login | client/lib/auth-context.tsx:79-102 | Sign-in succeeds exactly for a known address with its password, then signs that user in and saves the session; sample data is asked for only for the demo address. |
| Auth.WrongPasswordFails | client/lib/auth-context.tsx:85-86 | Any other password fails and changes nothing. |
| Auth.Signup | client/lib/auth-context.tsx:104-148 | Sign-up succeeds exactly for an unused address, then adds the account with default preferences and signs it in; a taken address changes nothing. |
| Auth.SignupThenLogin | client/lib/auth-context.tsx:116-142 | A new account signs in with its password, and its address cannot be registered again. |
| Auth.Logout | client/lib/auth-context.tsx:150-154 | Nobody is signed in, both storage keys are cleared, and every account is kept. |
| Auth.LogoutLogin | client/lib/auth-context.tsx:150-154 | Signing out and in again restores the same user. |
| Auth.MergeUser | client/lib/auth-context.tsx:164 | Each of the seven fields takes the patch's value when the patch carries it and keeps the user's otherwise. |
| Auth.MergeUserLaws | client/lib/auth-context.tsx:164 | Merging is idempotent, and an empty patch changes nothing. |
| Auth.UpdateProfile | client/lib/auth-context.tsx:156-175 | Fails exactly with nobody signed in; otherwise the user is merged and saved, and only the entry under the user's address is merged, keeping its password. |
| Auth.EmailChangeKeepsOldKey | client/lib/auth-context.tsx:169-171 | After an address change the account stays filed under the old address, which still signs in and yields the new address. |
| Auth.MergePreferences | client/lib/auth-context.tsx:182 | Each preference the patch gives takes effect; each one it leaves out keeps its value. |
| Auth.WholeUser | client/lib/auth-context.tsx:180-185 | Passing the whole user as a patch overwrites every field, except that a missing avatar leaves the target's. |
| Auth.UpdatePreferences | client/lib/auth-context.tsx:177-186 | Fails exactly with nobody signed in; otherwise the user's preferences become the merged ones. |
| Auth.PreferencesReachTable | client/lib/auth-context.tsx:177-186 | The table entry ends up with the user's new preferences and keeps its password. |
| SignupPage.Validate | client/pages/Signup.tsx:48-66 | Accepted exactly when all fields are filled, the password has at least 6 characters, matches its confirmation and the terms are accepted; a missing field is reported first. |
| SignupPage.ShortBeforeMismatch | client/pages/Signup.tsx:53-59 | With all fields filled, a short password is reported as short whatever the confirmation. |
| SignupPage.Submit | client/pages/Signup.tsx:68-94 | A rejected form shows its message and leaves accounts alone; an accepted one welcomes exactly when the address is free, else reports it taken. |
| SignupPage.WelcomeThenLogin | client/pages/Signup.tsx:78-90 | An account created here signs in with the confirmed password. |
| SettingsPage.ChangePassword | client/pages/Settings.tsx:115-158 | Succeeds exactly when both passwords are filled, the new one matches its confirmation and has at least 6 characters; success clears the fields, failure keeps them. |
| SettingsPage.OppositeOrders | client/pages/Settings.tsx:125-141 | A short, mismatched password is reported as short at sign-up but as a mismatch here; both accept the same passwords. |
| SettingsPage.ShortMismatchExample | client/pages/Settings.tsx:125-141 | "abc" confirmed as "abd": sign-up says too short, settings says no match. |
| SampleData.SampleCategoriesKnown | client/lib/sample-data.ts:69 | Every category id of the sample table names a default category, so the lookup never fails. |
| SampleData.SampleDraft | client/lib/sample-data.ts:67-85 | Each sample record is dated within the last 30 days, has its entry's default category, title, amount and type, a default payment method, USD, a monthly interval, and either no tags or the two sample tags. |
| SampleData.AddFirst | client/lib/sample-data.ts:67-86 | Adding n entries puts n records in front of the existing ones and changes nothing else. |
| SampleData.AddFirstPlaces | client/lib/sample-data.ts:67-86 | Entry k ends up at position n-1-k with its picked id. |
| SampleData.Generate | client/lib/sample-data.ts:3-87 | Another address or existing records leave the store alone; otherwise all 28 entries are added. |
| SampleData.GenerateTwice | client/lib/sample-data.ts:7-9 | A second run adds nothing. |
| SampleData.SeededShape | client/lib/sample-data.ts:67-85 | Every seeded record is dated within 30 days and has a default category and method, USD, a monthly interval and no attachments. |
| SampleData.LoginSeeds | client/lib/auth-context.tsx:91-94 | After a successful sign-in, seeding is asked for exactly at the demo address and then fills an empty store with 28 records and leaves a filled one alone; for another non-empty address the generator leaves the store alone. |
| CategoryView.MaxAmount | client/components/dashboard/CategoryAnalytics.tsx:19 | The maximum is at least every listed amount and is one of them. |
| CategoryView.MaxOfRanked | client/components/dashboard/CategoryAnalytics.tsx:19 | For a list ranked largest first, the maximum is the first amount. |
| CategoryView.BudgetLineOf | client/components/dashboard/CategoryAnalytics.tsx:104-116 | The budget line appears exactly for a positive budget; it says over exactly when the amount exceeds the budget, and the non-negative difference bridges amount and budget. |
| CategoryView.RowOf | client/components/dashboard/CategoryAnalytics.tsx:62-117 | A row shows its category and its share's amount and percentage, is flagged exactly above 25%, its bar is its amount as a percentage of the largest amount, and its budget line is the category's. |
| CategoryView.Rows | client/components/dashboard/CategoryAnalytics.tsx:62-120 | One row per listed category, in order. |
| CategoryView.Render | client/components/dashboard/CategoryAnalytics.tsx:31-144 | No data exactly without categories, a fault exactly when a listed category is missing, otherwise the daily average, the first category, one row each and the insights. |
| CategoryView.Insights | client/components/dashboard/CategoryAnalytics.tsx:130-142 | Each insight appears exactly under its condition, and the daily-tracking tip always closes the list. |
| CategoryView.ProgressBounds | client/components/dashboard/CategoryAnalytics.tsx:63 | With non-negative amounts and a positive maximum every bar is between 0 and 100, and a largest category's bar is full. |
| CategoryView.HighShareSum | client/components/dashboard/CategoryAnalytics.tsx:64 | Each flagged share takes more than 25 points of the percentages. |
| CategoryView.AtMostThreeHigh | client/components/dashboard/CategoryAnalytics.tsx:64 | Non-negative percentages adding up to at most 100 flag at most three categories. |
| CategoryView.StoreSummaryRows | client/components/dashboard/CategoryAnalytics.tsx:19-64 | On the store's own summary at most three rows are flagged, and the first category has the largest amount. |
| CategoryView.SavingInsights | client/components/dashboard/CategoryAnalytics.tsx:130-135 | With income, the saving insight appears exactly when expenses stay under 80% of income, the overspending one exactly when they exceed it; never both. |

## Left out

- Persistence is modelled only as far as the account service touches storage. `Auth.State.session` is the user written under the session key at sign-in, and logout clears both the session key and the transaction key. JSON encoding, loading from storage and session restore are left out, and the store and the account table are plain values.
- Auth.Login: the transaction-key writes are not tracked. Every store write saves that key, including the writes made by sample seeding after a demo sign-in. So `Auth.State.transactionsSaved` only records that logout has cleared the key.
- The randomness and the clock are parameters of the operations:
  - `crypto.randomUUID` and `Date.now().toString()` become a fresh-id parameter;
  - the clock becomes `now` / `today`;
  - `Math.random` becomes a `picks` parameter.
- The simulated delays are left out, along with loading flags, toasts, navigation and all JSX layout.
- Currency and number formatting (`Intl.NumberFormat`, `toFixed`) is left out; the model keeps exact values.
- Floating point is replaced by exact reals. Rounding is not modelled, and neither are NaN and Infinity.
- Time zones and daylight saving are left out. A date is a UTC day number.
- StoreAnalytics.WindowStart: the month and year starts come from the caller's `Clock`, because `setMonth` / `setFullYear` calendar arithmetic is not modelled.
- StoreAnalytics.WindowStart: one clock reading serves as both `now` and the start's base, where the source reads the clock twice (`now` and `startDate`); the week start is exactly seven days of milliseconds before `now`.
- StoreAnalytics.Analyze: requires that percentages can be formed. It excludes windows whose expense records total 0 (the source divides 0 by 0 there and lists NaN percentages).
- StoreAnalytics.Analyze: `monthlyTrend` is always empty, as in the source.
- Budgets.StatusOf: requires a non-zero amount. A zero budget gives an Infinity or NaN percentage in the source.
- Budgets.Progress: requires a non-zero amount, for the same reason.
- Goals.Progress: requires a non-zero target, for the same reason.
- CategoryView.Render: requires a non-zero largest amount, because the bar divides by it.
- Text.ToLower: folds ASCII letters only. Full Unicode case mapping is not modelled.
- Text.LexLeTotal: `localeCompare` is modelled as code-point lexicographic order; locale collation is not modelled.
- SignupPage.Validate: the password length counts code points, not UTF-16 units, so a password of three characters outside the Basic Multilingual Plane is long enough in the source and too short in the model.
- SettingsPage.ChangePassword: the new password's length counts code points, not UTF-16 units, for the same reason.
- SettingsPage.ChangePassword: models the checks only. The source only simulates the change, and no account's password is ever updated.
- Auth.Start: the account table is a map of own entries only. In the source an address such as "constructor" finds an inherited object property.
- Auth.Signup: such an inherited-key address is refused in the source and accepted as unused in the model.
- Auth.Login: such an inherited-key address finds no password in either, so the sign-in fails in both.
- ExpenseStore.AddExpense: uses one clock reading for both timestamps, where the source reads the clock twice.
- The store's getters are not modelled separately. `getCategories`, `getPaymentMethods` and `getBudgets` are the fields of `ExpenseStore.Store`.
- The export and download routines (Blob, URL) are left out.
- The hard-coded budgets and goals the pages start with are left out. The models start from any list.

## Findings

| source | as written | input that shows it | evidently intended | confidence | as-written member | corrected member |
|---|---|---|---|---|---|---|
| client/components/expense/AddExpenseModal.tsx:30-43 | The form state is initialised from `editingExpense` only once, when the dialog first mounts. The dashboard mounts the dialog with no record and never remounts it (client/pages/Dashboard.tsx:55-58, 183-190), and nothing reloads the form, so Edit opens the form the dialog already holds. | A record titled "Lunch", opened for editing on a freshly mounted dialog: the form shows an empty title and category, and saving it as shown saves nothing. | Opening a record for editing fills the form from the record, so saving it unchanged hands back the record's own fields. | high; not executed | ExpenseForm.EditShowsBlankForm | ExpenseForm.EditRoundTrip |
