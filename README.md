# spliq balance engine, modelled in Dafny

spliq is an expense-splitting application: users record expenses paid by one person and
split among several (each split carrying an amount and a `hasPaid` flag), record
settlements from one user to another, and organise both in groups or keep them personal.
The Convex query and mutation handlers compute who owes whom: the balance with one other
user, a group's netted ledger, the dashboard's per-counterparty lists and totals, the
monthly spending chart, the contact list, and the list of users with outstanding debts
that drives payment reminders.

This project models those handlers. The tables are sequences in creation order (an
index query is an order-preserving filter, except for the `by_date` index described under
"Left out"; `ctx.db.get` finds the record with that id);
ids are integers and amounts are integers in cents. Each handler that loops is a method
whose loops carry invariants and whose result is proved equal to a specification
function; the properties the application relies on (antisymmetry of pair balances,
zero-sum group books, netted cells equal to net debts, ledger entries in closed form,
sorted monthly buckets adding up to the yearly total) are lemmas about those functions.
The mutations (createSettlement, createExpense, deleteExpense, createGroup) are methods
on a `Database` class whose fields are the tables.

Two consequences of the code as written are proved rather than corrected. A group
stored by createGroup holds bare ids, so getSettlementData's membership test, which
reads `m.userId`, rejects every caller. A group holding `{userId}` members passes that
test, but all such members share the property name "[object Object]" in `balances`, and
looking that name up as a document id throws. The group branch therefore never returns
a view (Settlements.GroupViewNeverReturns); the lemmas about its rows describe the
tallies it computes before the lookup.

Modules: `Seqs` (filters, insertion-ordered sets, sums), `Records` (the stored records
and shared lookups), `Categories`, `Expenses`, `Settlements`, `Dashboard`, `Groups`,
`Contacts`, `Inngest` (the outstanding-debts query).

## Model

| member | source | states |
|---|---|---|
| Records.FindSplit | convex/dashboard.js:220-222 | the first split of the user, none exactly when the user has no split |
| Records.FindUnpaid | convex/inngest.js:34 | the first unpaid split of the user, which may follow a paid one; none exactly when every split of the user is paid |
| Records.FindGroup | convex/groups.js:10-11 | the group with that id if one exists, none exactly when no stored group has it |
| Records.FindExpense | convex/expenses.js:102-105 | the expense with that id if one exists, none exactly when no stored expense has it |
| Records.Database.InsertGroup | convex/contacts.js:60-65 | inserting a group appends it with the next id and leaves the other tables unchanged |
| Categories.Lookup | lib/expense-categories.js:143-145 | a key's entry is found exactly when the table has that key, and then it is the entry stored under it |
| Categories.GetCategoryById | lib/expense-categories.js:143-145 | a known key yields the entry stored under it, with that id; any other id yields the "other" entry |
| Categories.GetAllCategories | lib/expense-categories.js:148-150 | the 22 entries in declaration order |
| Categories.GetCategoryIcon | lib/expense-categories.js:153-156 | the icon of the key's entry, or the fallback icon for an unknown id |
| Categories.KeysAreIds | lib/expense-categories.js:29-140 | every key of the table is the id of its own entry |
| Categories.AllCategoriesDistinct | lib/expense-categories.js:29-140 | the listed categories have pairwise distinct ids |
| Categories.LookupTotal | lib/expense-categories.js:143-145 | whatever the id, the lookup returns one of the listed categories |
| Expenses.GetExpenseBetweenUsers | convex/expenses.js:6-91 | rejects the same user and an unknown other user; otherwise lists exactly the personal expenses either paid in which both are involved, exactly the personal settlements between the two, and their balance |
| Expenses.ExpenseTermFlip | convex/expenses.js:56-66 | an expense paid by one of the two users counts with opposite signs from the two sides |
| Expenses.PairBalanceAntisymmetric | convex/expenses.js:18-72 | the balance A sees against B is the negation of the balance B sees against A |
| Expenses.InvolvementFilterImmaterial | convex/expenses.js:27-66 | dropping expenses where one user is not involved never changes the balance |
| Expenses.MealScenario | convex/expenses.js:56-72 | a 30.00 meal split evenly leaves the other user owing 15.00, and a 15.00 settlement brings it to 0 |
| Expenses.UninvolvedScenario | convex/expenses.js:27-35 | an expense whose splits name neither user of the pair leaves their balance at 0 |
| Expenses.CheckExpense | convex/expenses.js:169-187 | accepts exactly when any named group exists and lists the caller and the splits add up to the amount within one cent; otherwise the first failing guard's error |
| Expenses.DefaultCategoryResolves | convex/expenses.js:192 | the default category stored for a missing one resolves to the catalogue's "Other" entry |
| Expenses.CreateExpense | convex/expenses.js:148-204 | on the guards' success appends one record with a fresh id, the caller as creator and the defaulted category; on failure raises that error and changes nothing |
| Expenses.CheckDelete | convex/expenses.js:102-111 | accepts exactly when the expense exists and the caller created or paid it; names the missing expense or the missing permission otherwise |
| Expenses.RemoveExpenseExactlyOne | convex/expenses.js:142 | with distinct ids, deleting by id removes that one expense and keeps the others in order |
| Expenses.RemoveKeepsIds | convex/expenses.js:142 | deleting a present expense shortens the table by one and keeps its ids distinct and below the counter |
| Expenses.DeleteExpense | convex/expenses.js:93-146 | on the guards' success removes the expense and returns true; on failure raises that error and changes nothing |
| Settlements.CheckSettlement | convex/settlements.js:16-42 | accepts exactly when a caller is signed in, the amount is positive, payer and receiver differ, the caller is one of them and any named group exists and lists the caller; each error exactly under its guard |
| Settlements.CreateSettlement | convex/settlements.js:5-55 | on success appends one positive settlement between two different users, created by one of them, and with no related expenses, because it reads them from a field the arguments do not have; on failure raises the guard's error and changes nothing |
| Settlements.UserBalance | convex/settlements.js:85-139 | the user view's loops compute its tallies, and the net balance is what I am owed less what I owe |
| Settlements.UserSettlementsOnlyLower | convex/settlements.js:108-126 | each tally is non-negative before settlements and settlements can only lower it |
| Settlements.UserViewExpensesMatch | convex/settlements.js:85-106 | where payers appear in their own splits, the expense part of the view equals that of the pair balance |
| Settlements.SettlementContribution | convex/settlements.js:118-126 | a settlement between the two users contributes to the view what it contributes to the pair balance |
| Settlements.UserViewSettlementsMatch | convex/settlements.js:108-126 | with non-negative settlements, the settlement part of the view equals that of the pair balance |
| Settlements.UserViewMatchesPairBalance | convex/settlements.js:66-139 | where the two handlers' involvement rules coincide, the view's net balance is the balance of getExpenseBetweenUsers |
| Settlements.InvolvementRulesDiffer | convex/settlements.js:85-106 | an expense paid by me and split only to the other user counts 10.00 in the pair balance and nothing here |
| Settlements.SomeUserIdIs | convex/settlements.js:145-146 | the membership test holds only for a `{userId}` entry of the caller and throws on a null entry |
| Settlements.TallyKeys | convex/settlements.js:155-158 | one key per distinct member other than the caller, and never the caller |
| Settlements.InitTallies | convex/settlements.js:155-158 | a tally for exactly the keys |
| Settlements.ApplyMySplits | convex/settlements.js:161-174 | keeps the keys, and throws only a TypeError when a split user has no tally |
| Settlements.ApplyGroupExpense | convex/settlements.js:161-174 | keeps the keys, and throws only a TypeError |
| Settlements.ApplyGroupExpenses | convex/settlements.js:161-174 | keeps the keys, and throws only a TypeError |
| Settlements.ApplyGroupSettlement | convex/settlements.js:177-196 | keeps the keys |
| Settlements.ApplyGroupSettlements | convex/settlements.js:177-196 | keeps the keys |
| Settlements.Rows | convex/settlements.js:203-214 | one row per key of `balances` in order, carrying that key's tallies, each net balance being owed less owing |
| Settlements.LookupRows | convex/settlements.js:199-201 | the member lookup fails with InvalidId exactly when some key is "[object Object]" or "null", and otherwise keeps the rows |
| Settlements.MySplitsErrSticks | convex/settlements.js:161-174 | once a split throws, the whole loop throws |
| Settlements.GroupExpensesErrSticks | convex/settlements.js:161-174 | once an expense throws, the whole loop throws |
| Settlements.InitBalances | convex/settlements.js:155-158 | the initialisation loop builds the keys and the zero tallies |
| Settlements.ApplyMySplitsLoop | convex/settlements.js:163-168 | the loop over my splits computes the tallies of its specification, throwing where it throws |
| Settlements.ApplyGroupExpensesLoop | convex/settlements.js:161-174 | the loop over the group's expenses computes the tallies of its specification |
| Settlements.ApplyGroupSettlementsLoop | convex/settlements.js:177-196 | the loop over the group's settlements computes the tallies of its specification |
| Settlements.GroupTallies | convex/settlements.js:141-225 | the group branch computes the group view: missing group, non-member, TypeError, a key that is not an id, or the rows |
| Settlements.GroupViewNeverReturns | convex/settlements.js:145-201 | as written the group branch always fails: passing the membership test needs a `{userId}` member, whose key the member lookup rejects with InvalidId |
| Settlements.MySplitsKeepNonNegative | convex/settlements.js:161-168 | with non-negative splits my splits keep every tally non-negative |
| Settlements.GroupExpensesKeepNonNegative | convex/settlements.js:161-174 | with non-negative splits the expenses keep every tally non-negative |
| Settlements.GroupSettlementsKeepNonNegative | convex/settlements.js:185-194 | the floored subtractions keep every tally non-negative |
| Settlements.GroupRowsNonNegative | convex/settlements.js:141-225 | with non-negative splits every youAreOwed and youOwe of the rows built from the tallies is non-negative |
| Settlements.GroupRowsExcludeCaller | convex/settlements.js:155-158 | the caller has no row, rows have distinct keys, and every other member has one |
| Settlements.BareGroupsRejectGroupView | convex/settlements.js:145-146 | a group holding bare ids only, as createGroup stores them, rejects every caller as a non-member |
| Settlements.GetSettlementData | convex/settlements.js:57-227 | dispatches to the user view (rejecting an unknown user) or the group view, which always fails, and rejects any other entity type |
| Dashboard.PayerDeltas | convex/dashboard.js:19-26 | updates only for other users, and never to what I owe |
| Dashboard.ExpenseDeltas | convex/dashboard.js:15-31 | the payer branch when I paid, else at most one update: my first split, when it is unpaid, owed to the payer |
| Dashboard.Bump | convex/dashboard.js:21-29 | one update keeps one entry per counterparty |
| Dashboard.Book | convex/dashboard.js:15-45 | the updates keep one entry per counterparty |
| Dashboard.ToEntries | convex/dashboard.js:47-69 | one entry per counterparty with the absolute value of its net |
| Dashboard.PayerLoop | convex/dashboard.js:19-26 | the inner loop over the splits makes exactly the payer updates |
| Dashboard.SumByNonOwing | convex/dashboard.js:19-26 | the payer branch adds nothing to what I owe |
| Dashboard.ExpenseLoop | convex/dashboard.js:15-31 | the loop over the expenses computes the table and both tallies of its specification |
| Dashboard.TallyExpense | convex/dashboard.js:16-30 | one expense continues the table and both tallies with that expense's updates |
| Dashboard.SettlementLoop | convex/dashboard.js:33-45 | the loop over the settlements continues the table and tallies with the settlement updates |
| Dashboard.Settle | convex/dashboard.js:36-44 | one settlement continues the table and both tallies with its update |
| Dashboard.ListLoop | convex/dashboard.js:50-69 | the loop over the entries builds the two lists of their specification, and throws a TypeError exactly when a counterparty with a non-zero net names no user |
| Dashboard.ListStep | convex/dashboard.js:50-69 | one more counterparty extends the list its net's sign selects, and a zero net extends neither |
| Dashboard.Tallies | convex/dashboard.js:9-45 | the two loops leave the table and both tallies of every update read |
| Dashboard.GetUserBalances | convex/dashboard.js:4-78 | computes the balances of its specification, the total being owed less owing; a TypeError exactly when a counterparty with a non-zero net names no user |
| Dashboard.BumpNet | convex/dashboard.js:21-29 | each update moves the sum of the nets by its own net |
| Dashboard.BookNet | convex/dashboard.js:15-45 | the sum of the nets moves by the sum of the updates' nets |
| Dashboard.TotalBalanceIsSumOfNets | convex/dashboard.js:71-76 | the total balance is the sum over all counterparties of their nets |
| Dashboard.ToEntriesAmounts | convex/dashboard.js:47-69 | the listed amounts add up to the sum of absolute nets |
| Dashboard.ListsNet | convex/dashboard.js:47-69 | amounts owed to me less amounts I owe is the sum of the nets |
| Dashboard.TotalBalanceIsListDifference | convex/dashboard.js:47-76 | the total balance equals the owed list's sum less the owe list's sum |
| Dashboard.ListsExact | convex/dashboard.js:47-69 | the lists hold exactly the non-zero nets, each on the side its sign selects, with a positive amount |
| Dashboard.OwedListSound | convex/dashboard.js:47-69 | every entry of the owed list has a positive amount equal to some counterparty's net |
| Dashboard.OwedListComplete | convex/dashboard.js:47-69 | every counterparty with a positive net is in the owed list with that net |
| Dashboard.ListsDisjointFor | convex/dashboard.js:47-69 | no counterparty is on both lists |
| Dashboard.ListsDisjoint | convex/dashboard.js:47-69 | in the handler's result no counterparty is on both lists and every amount is positive |
| Dashboard.UnreadExpenseIgnored | convex/dashboard.js:9 | a group expense, or one I neither paid nor share, does not change the result |
| Dashboard.UnreadSettlementIgnored | convex/dashboard.js:33-45 | a group settlement, or one between two other users, does not change the result |
| Dashboard.MarkAllPaid | convex/dashboard.js:19-26 | the same splits with every one marked paid |
| Dashboard.PayerIgnoresHasPaid | convex/dashboard.js:19-26 | on the payer side marking every split paid changes nothing |
| Dashboard.GetTotalSpent | convex/dashboard.js:80-115 | the loop sums my shares over the expenses of the year in which I am involved |
| Dashboard.TotalSpentIsYearShare | convex/dashboard.js:95-111 | the total is the sum of my shares over every expense dated in the year |
| Dashboard.SetMonthMonths | convex/dashboard.js:163-164 | setting a bucket adds its month if absent, keeps every other month and keeps months distinct |
| Dashboard.InitMonths | convex/dashboard.js:143-146 | one zero bucket for each month start, months distinct |
| Dashboard.AddSharesMonths | convex/dashboard.js:149-165 | the sums keep every existing bucket and keep months distinct |
| Dashboard.InsertByMonth | convex/dashboard.js:174 | insertion keeps the buckets as a multiset plus the new one |
| Dashboard.SortByMonth | convex/dashboard.js:174 | the sort is a permutation of the buckets |
| Dashboard.InsertAscending | convex/dashboard.js:174 | inserting a new month into ascending buckets keeps them ascending |
| Dashboard.SortAscending | convex/dashboard.js:174 | with distinct months the sorted buckets are strictly ascending |
| Dashboard.InitMonthsLoop | convex/dashboard.js:143-146 | the initialisation loop builds the twelve zero buckets |
| Dashboard.AddSharesLoop | convex/dashboard.js:149-165 | the summation loop adds each share to its month's bucket |
| Dashboard.GetMonthlySpending | convex/dashboard.js:118-178 | computes the sorted monthly buckets of its specification |
| Dashboard.SetMonthTotal | convex/dashboard.js:149-165 | setting a bucket changes the grand total by the change in that bucket |
| Dashboard.AddSharesTotal | convex/dashboard.js:149-165 | summing by month adds exactly the sum of the shares to the grand total |
| Dashboard.AddShareTotal | convex/dashboard.js:158-165 | one expense adds exactly the user's share to the grand total, nothing when the user has no split |
| Dashboard.AddShareOf | convex/dashboard.js:150-165 | the body of the loop over the year's expenses computes the one-expense step of the monthly sums |
| Dashboard.MonthsKept | convex/dashboard.js:174 | reordering the buckets keeps a bucket for every month start |
| Dashboard.InsertTotal | convex/dashboard.js:174 | insertion adds the new bucket's total |
| Dashboard.SortTotal | convex/dashboard.js:174 | sorting keeps the grand total |
| Dashboard.MonthlySpendingProperties | convex/dashboard.js:118-178 | the result is strictly ascending by month, every month start has a bucket, and the buckets add up to the total spent in the year |
| Dashboard.UserGroupsIncludeMemberships | convex/dashboard.js:186-197 | the tolerant test lists every group containing the caller as a bare id or a `{userId}` entry, and nothing outside the table |
| Dashboard.AsWrittenIgnoresSettlements | convex/dashboard.js:233-235 | as written no settlement ever reaches a group balance |
| Dashboard.SettlementFilterFinding | convex/dashboard.js:230-246 | a settled 10.00 debt still shows as 10.00 as written and as 0 as intended |
| Dashboard.GroupBalanceAppliesSettlement | convex/dashboard.js:238-246 | with the intended filter a settlement of the group with the caller as a party moves the balance by exactly its amount, and any other leaves it alone |
| Dashboard.GroupBalanceLoop | convex/dashboard.js:208-246 | the loops of one group compute its intended balance |
| Dashboard.GetUserGroups | convex/dashboard.js:180-256 | one entry per listed group in order, each with its balance |
| Groups.MemberIds | convex/groups.js:23-30 | the member ids when every member is an id naming a user; InvalidId for a member that is not an id, TypeError for one naming no user |
| Groups.ZeroState | convex/groups.js:32-40 | zero totals and a zero ledger over exactly the ordered pairs of distinct members |
| Groups.ZeroLedger | convex/groups.js:34-40 | the nested loop builds the zero ledger |
| Groups.ApplySplit | convex/groups.js:45-55 | succeeds exactly when the split is the payer's or names a member, and keeps the tables over the members |
| Groups.ApplySplits | convex/groups.js:45-55 | succeeds exactly when every split resolves; throws only a TypeError |
| Groups.ApplyExpenses | convex/groups.js:42-56 | succeeds exactly when every expense's splits resolve; throws only a TypeError |
| Groups.ApplySettlement | convex/groups.js:58-63 | succeeds exactly when the payer is a member; throws only a TypeError |
| Groups.ApplySettlements | convex/groups.js:58-63 | succeeds exactly when every payer is a member |
| Groups.ApplySplitsLoop | convex/groups.js:45-55 | the loop over one expense's splits computes its specification |
| Groups.ApplyExpensesLoop | convex/groups.js:42-56 | the loop over the expenses computes its specification |
| Groups.ApplySettlementsLoop | convex/groups.js:58-63 | the loop over the settlements computes its specification |
| Groups.BookSettlement | convex/groups.js:59-62 | the body of the settlement loop computes exactly the one-settlement step of the books |
| Groups.Normalised | convex/groups.js:65-85 | keeps the cells; of each pair both cells are non-negative, at least one is 0, and their difference is the one before netting |
| Groups.NormaliseLoop | convex/groups.js:65-85 | the nested netting loop over pairs a < b yields the netted ledger |
| Groups.NetPair | convex/groups.js:69-82 | one visit of a pair leaves the difference on the side that owes it and zero on the other |
| Groups.Owes | convex/groups.js:90-92 | exactly the positive cells of the member's row |
| Groups.OwedBy | convex/groups.js:93-95 | exactly the positive cells of the member's column |
| Groups.Balances | convex/groups.js:87-96 | one row per member in order carrying that member's total |
| Groups.GroupLedgerOf | convex/groups.js:5-113 | GroupNotFound exactly for a missing group, NotGroupMember exactly for a caller not listed, success exactly when members and payers resolve, and the group's own expenses and settlements |
| Groups.GetGroupExpenses | convex/groups.js:5-113 | the handler computes the group ledger of its specification |
| Groups.ZeroBooks | convex/groups.js:32-40 | the zero state keeps the books: totals are the ledger flows and sum to zero |
| Groups.FlowMove | convex/groups.js:51-54 | booking a cell moves the two parties' flows by the amount and no other |
| Groups.MovedKeepsBooks | convex/groups.js:51-54 | booking a cell with the matching total changes keeps the books |
| Groups.SplitKeepsBooks | convex/groups.js:45-55 | one split keeps the books |
| Groups.SplitsKeepBooks | convex/groups.js:45-55 | an expense's splits keep the books |
| Groups.ExpensesKeepBooks | convex/groups.js:42-56 | the expenses keep the books |
| Groups.SettlementKeepsBooks | convex/groups.js:58-63 | one settlement among members keeps the books |
| Groups.SettlementsKeepBooks | convex/groups.js:58-63 | settlements among members keep the books |
| Groups.NettingKeepsBooks | convex/groups.js:65-85 | netting keeps each pair's difference and so the books |
| Groups.SplitCells | convex/groups.js:45-55 | one split adds its amount to the debtor-to-payer cell and to no other |
| Groups.SplitsCells | convex/groups.js:45-55 | an expense's splits add to each cell the debtor's shares of it |
| Groups.ExpensesCells | convex/groups.js:42-56 | the expenses add to each cell the debtor's shares of what the creditor paid |
| Groups.SettlementsCells | convex/groups.js:58-63 | the settlements take from each cell what was paid back along it |
| Groups.BalancesTotal | convex/groups.js:87-96 | the rows' totals add up to the members' totals |
| Groups.LedgerZeroSum | convex/groups.js:87-96 | with distinct members and everything paid among them, the total balances add up to zero |
| Groups.OwesSum | convex/groups.js:90-92 | the owes amounts add up to the row's positive cells |
| Groups.OwedBySum | convex/groups.js:93-95 | the owedBy amounts add up to the column's positive cells |
| Groups.RowBalance | convex/groups.js:87-96 | once netted, a member's total is owedBy less owes |
| Groups.FinalBooks | convex/groups.js:42-85 | after expenses, settlements and netting the books hold |
| Groups.RowsBalance | convex/groups.js:87-96 | every row nets to its member's total |
| Groups.LedgerBalances | convex/groups.js:87-96 | in the handler's result every row's total is owedBy less owes |
| Groups.BalanceIsOwedLessOwing | convex/groups.js:87-96 | with distinct members and everything paid among them, every member's total balance is what they are owed less what they owe |
| Groups.NettedCells | convex/groups.js:42-85 | every netted cell is the net debt of its pair |
| Groups.NettedIsNetDebt | convex/groups.js:65-85 | in the handler, every netted cell is the pair's net debt computed from the group's records |
| Groups.OwesIsNetDebt | convex/groups.js:90-92 | every owes entry is a positive net debt to a member, and every positive net debt is listed |
| Groups.OwedByIsNetDebt | convex/groups.js:93-95 | every owedBy entry is a positive net debt from a member, and every positive net debt is listed |
| Groups.Listing | convex/groups.js:159-166 | one summary per group in order, with its member count |
| Groups.KnownIds | convex/groups.js:135-149 | exactly the member ids that name a user |
| Groups.MemberDetails | convex/groups.js:135-149 | succeeds exactly when every member is an id, then lists the known ones; InvalidId otherwise |
| Groups.GroupOrMembers | convex/groups.js:115-183 | without a group id only the listing; with one, rejects a missing group or non-member, else the selected group with its known members; the listing is exactly the caller's groups |
| Groups.AccessAgrees | convex/groups.js:127-131 | with distinct group ids, the group page and the group ledger reject the same callers |
| Contacts.AddSplitUsers | convex/contacts.js:25-30 | the inner loop adds exactly the split users other than the caller, keeping the set duplicate-free |
| Contacts.AddParties | convex/contacts.js:21-30 | one expense adds exactly its other parties |
| Contacts.ContactIds | convex/contacts.js:16-31 | duplicate-free, and exactly the other parties of the expenses |
| Contacts.ContactsOf | convex/contacts.js:5-39 | contacts are never the caller and are users; every other party of a personal expense who is a user is listed; the groups are exactly those containing the caller |
| Contacts.CollectContacts | convex/contacts.js:16-31 | the nested loops build the contact set of its specification |
| Contacts.GetAllContacts | convex/contacts.js:5-39 | the handler computes the contact list of its specification |
| Contacts.ContactsShareExpenses | convex/contacts.js:9-14 | every contact shares a personal expense with the caller |
| Contacts.Resolve | convex/contacts.js:33 | one lookup per collected id, in order; a user appears exactly when the id names one |
| Contacts.GroupMembers | convex/contacts.js:53-54 | duplicate-free, containing the creator, exactly the requested members and the creator |
| Contacts.FirstInvalid | convex/contacts.js:56-58 | none exactly when every id names a user; otherwise an id naming no user |
| Contacts.FirstInvalidAt | convex/contacts.js:56-58 | the check reports the first id that names no user |
| Contacts.CheckGroup | convex/contacts.js:51-58 | accepts exactly when the name is non-empty and the creator and all members are users; an empty name first, else an invalid member or creator |
| Contacts.CreateGroup | convex/contacts.js:41-66 | on success appends one group with a fresh id; on failure raises the guard's error and changes nothing |
| Contacts.NewGroupMembers | convex/contacts.js:60-65 | the stored group is created by the caller and lists the caller, each member once and nothing else |
| Contacts.Bares | convex/contacts.js:64 | the stored members are the set's ids as bare ids, in order, and nothing else |
| Inngest.IndexOf | convex/inngest.js:38 | the position of the counterparty's entry, or -1 when it has none |
| Inngest.Get | convex/inngest.js:38 | the entry of the counterparty, none exactly when it has none |
| Inngest.Charge | convex/inngest.js:38-44 | one charge keeps one entry per counterparty |
| Inngest.ChargeEntry | convex/inngest.js:38-44 | the read-modify-write of one entry is the ledger charge |
| Inngest.ChargeSplits | convex/inngest.js:48-57 | the payer loop keeps one entry per counterparty |
| Inngest.ChargeSplitsLoop | convex/inngest.js:48-57 | the loop over the payer's splits computes the ledger charge of every unpaid split of somebody else |
| Inngest.ChargeExpense | convex/inngest.js:30-59 | one expense keeps one entry per counterparty |
| Inngest.ExpensesLedger | convex/inngest.js:30-59 | the ledger after the expenses has one entry per counterparty |
| Inngest.Adjust | convex/inngest.js:64-69 | an adjustment keeps one entry per counterparty |
| Inngest.AdjustEntry | convex/inngest.js:64-69 | the settlement's read-modify-write of one entry is the ledger adjustment, deleting an entry that reaches 0 |
| Inngest.SettledLedger | convex/inngest.js:62-80 | the settlements keep one entry per counterparty |
| Inngest.GetUnique | convex/inngest.js:38 | with one entry per key, the entry found for a key is the one stored |
| Inngest.ChargeGet | convex/inngest.js:38-44 | a charge accrues onto its counterparty's entry, creating it dated the expense, and leaves others |
| Inngest.AccrueTwice | convex/inngest.js:54-55 | two charges of one date accrue as their sum |
| Inngest.ChargeSplitsGet | convex/inngest.js:48-57 | the payer loop subtracts a counterparty's unpaid splits from its entry |
| Inngest.ChargeSplitGet | convex/inngest.js:49-56 | one split moves the counterparty's entry by what it leaves unpaid for that counterparty |
| Inngest.NoUnpaidSum | convex/inngest.js:49 | without an unpaid split a counterparty is charged nothing |
| Inngest.ExpenseGet | convex/inngest.js:30-59 | one expense accrues its charge onto exactly the entry it bears on |
| Inngest.ExpensesLedgerGet | convex/inngest.js:30-59 | each entry after the expenses is the accrual of the expenses bearing on it |
| Inngest.NonContributing | convex/inngest.js:30-59 | an expense not bearing on an entry charges it nothing |
| Inngest.AccruedClosedForm | convex/inngest.js:30-59 | an entry exists exactly when some expense bears on it; its amount is the sum of the charges and its date the earliest of theirs |
| Inngest.ExpensesLedgerClosedForm | convex/inngest.js:30-59 | after the expenses an entry exists exactly when some expense bears on it, with the summed amount and the earliest date |
| Inngest.AdjustGet | convex/inngest.js:64-77 | an adjustment moves only an existing entry and deletes it at exactly zero |
| Inngest.DeleteGet | convex/inngest.js:67 | deleting an entry hides its key and no other |
| Inngest.UpdateGet | convex/inngest.js:68 | setting an entry replaces that key's value and no other |
| Inngest.SettlementEffect | convex/inngest.js:62-80 | paying lowers what is owed the receiver, receiving raises what is owed the payer, and nothing else moves |
| Inngest.SettlementsOnlyExisting | convex/inngest.js:62-80 | settlements never add an entry and never change its date |
| Inngest.NoSelfEntry | convex/inngest.js:30-80 | a user is never their own counterparty |
| Inngest.Debts | convex/inngest.js:82-93 | exactly the positive entries, non-empty exactly when the user owes somebody |
| Inngest.DebtsOf | convex/inngest.js:82-93 | succeeds exactly when every creditor names a user; TypeError otherwise |
| Inngest.DebtorsAmong | convex/inngest.js:23-103 | succeeds exactly when every ledger resolves; lists exactly the users who owe somebody, with their positive entries |
| Inngest.BookExpenses | convex/inngest.js:30-59 | the loop over the expenses builds the ledger of its specification |
| Inngest.SettleLedger | convex/inngest.js:62-80 | the loop over the settlements adjusts the ledger as its specification does |
| Inngest.CollectDebts | convex/inngest.js:82-93 | the loop over the ledger collects the debts of its specification |
| Inngest.GetUsersWithOutstandingDebts | convex/inngest.js:3-106 | the handler computes the outstanding debts of its specification |
| Inngest.DebtorsOwe | convex/inngest.js:82-102 | every listed user is a user with a non-empty list of positive debts to others |

## Left out

- Names, emails and avatar urls of users are not modelled; lookups of a user record are modelled as membership in the users table.
- The signed-in user is a parameter. The queries assume a signed-in user; createSettlement takes an optional caller because it checks for one.
- `Date.now()`, the start of the year, the month starts and the month of a date are parameters. Calendar arithmetic is not modelled.
- Amounts are integer cents. The 0.01 tolerance of createExpense is one cent compared exactly; floating-point rounding is not modelled.
- `Promise.all` concurrency, `console.log` and Convex's transaction semantics are not modelled.
- The `userCache` of getUsersWithOutstandingDebts is left out: it only memoises lookups.
- The email action, the payment-reminder and spending-insight jobs, the Inngest route, the authentication helpers and the UI components are not part of this model.
- Ledger cells between a member and a non-member in getGroupExpenses are not modelled. They become NaN in JavaScript and never reach the result; a debtor or settlement payer outside the members is modelled as the TypeError JavaScript throws.
- deleteExpense's commented-out settlement cleanup is not code and is not modelled.
- Groups.LedgerZeroSum: stated only when the group lists each member once and every expense was paid, and every settlement received, by a member. A repeated member gets one row per occurrence, all with the same total, so the rows need not add up to zero.
- Groups.BalanceIsOwedLessOwing: stated under the same two conditions as Groups.LedgerZeroSum.
- The exact error message strings are modelled as one `Error` constructor per message.
- Settlements.GetSettlementData: `entityId` is assumed to be an id of the table the entity type names. With type "user" and a group's id the source finds a document and returns zero tallies; with type "group" and a user's id `group.members.some` throws a TypeError; a string that is no id at all is rejected by `ctx.db.get`. The model returns UserNotFound or GroupNotFound in all three cases.
- Settlements.GroupTallies: the member names of the rows are left out. Only the names are lost for an id that names no user, which reads null and shows as "Unknown".
- Categories.GetCategoryById: ids are assumed to come from the catalogue or the "Other" default. An inherited property name such as "constructor" or "toString" reads a prototype member of the plain object in the source; the model returns the `other` entry.
- Categories.GetCategoryIcon: for the same inherited property names the source yields `undefined`; the model returns the `other` entry's icon.
- Dashboard.SpendingExpenses: the `by_date` index returns the year's expenses in date order, while the model keeps creation order. Only a sum (getTotalSpent) and the month buckets, which are then sorted by month, use the result, and neither depends on the order.

## Findings

| source | as written | input that shows it | evidently intended | confidence | as-written member | corrected member |
|---|---|---|---|---|---|---|
| convex/dashboard.js:233-235 | the `.filter` callback receives the query's filter builder, not a settlement, so it compares undefined fields and yields false: no settlement ever reaches a group balance | A pays 20.00 in group 1 split 10.00 / 10.00 with B, then B pays A 10.00 in the group: A's balance still shows 10.00 owed to A instead of 0 | keep the group's settlements in which the caller is a party and apply them | not executed | Dashboard.SettlementFilterFinding | Dashboard.GroupBalanceAppliesSettlement |
