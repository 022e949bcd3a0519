# AutoCarFinance in Dafny

A model of the bookkeeping core of AutoCarFinance, a single-page app in which a
used-car dealer keeps an inventory of vehicles, customers and leads, sales and
expenses, and watches profit figures on a dashboard. Everything runs in the
browser: a local store (`services/store.tsx`) keeps the registered users, the
session and the four collections of the logged-in store, and saves them as a
JSON document per user in local storage. The screens compute totals, filters
and records from those collections and call the store's actions.

The model has one module per source file:

| module | file | what it holds |
|---|---|---|
| `Wrappers` | — | `Option`, and `Slot` for a local-storage entry (absent, unreadable, or a parsed value) |
| `Types` | `types.ts` | the records and enums of the app as datatypes; money is `int` (centavos) |
| `Seqs`, `Text` | — | the list and string operations the source uses (`filter`, `find`, `reduce`, `map` by id, `toLowerCase`, `includes`, name order) with their properties |
| `Store` | `services/store.tsx` | class `StoreState`: the session state machine, the collection actions, loading and saving the data document |
| `Dashboard` | `components/Dashboard.tsx` | the KPI folds, the margin, the target-margin input and the six-month chart (imperative, as in the source) |
| `Inventory` | `components/Inventory.tsx` | per-vehicle expenses and total cost, the vehicle search, and class `InventoryView` with the three handlers |
| `Sales` | `components/Sales.tsx` | available vehicles, projected profit, display names, sales search, the customer list sorted by name, and class `SalesView` |
| `Finance` | `components/Finance.tsx` | the three totals and class `FinanceView` with the expense form |
| `Customers` | `components/Customers.tsx` | class `CustomersView`: adding a customer and the two-step deletion |
| `Login` | `components/Login.tsx` | the error-code messages and class `LoginView` |
| `SaasAdmin` | `components/SaaSAdmin.tsx` | class `LicenseAdmin`: reading the licence list and issuing a key |

Each screen's class holds its form state as fields and a `const store` that
points at the shared `StoreState`; its handlers change the form fields and
call the store's actions, and their `modifies` clauses name exactly the
fields they touch. Timestamps, random ids, random key parts and the current
date are parameters. Dates are `Date(year, month, day)` with months counted
from 0, as `getMonth` counts them.

## Model

| member | source | states |
|---|---|---|
| Store.EmptyWorkspace | services/store.tsx:162-175 | all four collections are empty and the profile carries the user's store name and email, no phone and a 20% target |
| Store.LoadWorkspace | services/store.tsx:124-155 | a missing or unreadable document gives the empty workspace; a parsed one gives each present key as stored, and each missing key its empty default (the initial profile for the profile) |
| Store.LoadSnapshot | services/store.tsx:77-92 | loading a document written by the persistence effect gives back exactly the data that was written |
| Store.FindUser | services/store.tsx:117 | a found user is in the list with exactly the given email and password; nothing is found exactly when no user has both |
| Store.FindRegisteredUser | services/store.tsx:177-196 | a user appended with an unused email is the one found by its own credentials |
| Store.StoreState.constructor | services/store.tsx:42-64 | users come from storage (none when absent or unreadable); no session, empty collections, the empty profile |
| Store.StoreState.Persist | services/store.tsx:77-92 | the data is written under `autocars_data_<id>` exactly when a user is current, authenticated and loaded; otherwise storage is unchanged |
| Store.StoreState.AddVehicle | services/store.tsx:96 | the vehicle is prepended; only the vehicle list changes |
| Store.StoreState.UpdateVehicle | services/store.tsx:97 | same length; every vehicle with the given id is replaced, all others kept |
| Store.StoreState.RemoveVehicle | services/store.tsx:98 | keeps exactly the vehicles with another id, in order |
| Store.StoreState.AddCustomer | services/store.tsx:100 | the customer is prepended; only the customer list changes |
| Store.StoreState.RemoveCustomer | services/store.tsx:101 | keeps exactly the customers with another id, in order |
| Store.StoreState.AddSale | services/store.tsx:103-109 | the sale is prepended; vehicles keep their length; without a vehicle of that id vehicles are unchanged; otherwise each vehicle with that id becomes the first such vehicle with status Sold, all others unchanged |
| Store.StoreState.AddExpense | services/store.tsx:110 | the expense is prepended; only the expense list changes |
| Store.StoreState.RemoveExpense | services/store.tsx:111 | keeps exactly the expenses with another id, in order |
| Store.StoreState.UpdateStoreProfile | services/store.tsx:113 | the profile becomes the given one; nothing else changes |
| Store.StoreState.InitializeEmptyData | services/store.tsx:162-175 | installs the empty workspace of the user and opens the persistence guard |
| Store.StoreState.Login | services/store.tsx:115-160 | succeeds iff some user has exactly that email and password; then that (first) user is current, authenticated and loaded, and the data is what `LoadWorkspace` gives for that user's document; on failure nothing changes |
| Store.StoreState.Register | services/store.tsx:177-196 | fails and changes nothing iff the email is taken; otherwise appends exactly that user, logs it in and installs its empty workspace |
| Store.StoreState.Logout | services/store.tsx:199-210 | no session, guard closed, empty collections and the empty profile; users and storage kept |
| Store.SaveLogoutLogin | services/store.tsx:77-92 | data saved by a loaded session is exactly what the same user gets back after logging out and in |
| Store.RegisterThenLogin | services/store.tsx:177-196 | a user registered with an unused email can then log in with those credentials |
| Seqs.RemoveById | services/store.tsx:98 | an element is kept iff its id differs; with no element of that id the list is unchanged |
| Seqs.ReplaceById | services/store.tsx:97 | same length; position by position, the new item where the id matches and the old item elsewhere |
| Seqs.FindByKey | services/store.tsx:105 | nothing found iff no element has the key; otherwise the result is the first element with it |
| Dashboard.TotalRevenue | components/Dashboard.tsx:24 | the sum of sale prices; 0 for no sales |
| Dashboard.SalesProfit | components/Dashboard.tsx:25 | the sum of recorded profits; 0 for no sales |
| Dashboard.TotalExpenses | components/Dashboard.tsx:26 | the sum of amounts; 0 for no expenses |
| Dashboard.MaintenanceExpenses | components/Dashboard.tsx:29-31 | only Manutenção expenses count: 0 when there are none |
| Dashboard.MaintenanceWithinTotal | components/Dashboard.tsx:29-31 | with non-negative amounts, 0 ≤ maintenance ≤ total expenses |
| Dashboard.GrossProfit | components/Dashboard.tsx:34 | with no maintenance expense, gross profit is the whole sales profit: only maintenance lowers it |
| Dashboard.NetProfit | components/Dashboard.tsx:37 | with no expenses, net profit is the sales profit; it is always gross profit less exactly the non-maintenance expenses |
| Dashboard.NetAtMostGross | components/Dashboard.tsx:34-37 | with non-negative amounts, net profit ≤ gross profit |
| Dashboard.Margin | components/Dashboard.tsx:41 | 0 when gross profit ≤ 0; otherwise margin × gross = net × 100, and at most 100 when net ≤ gross |
| Dashboard.MarginAtMostHundred | components/Dashboard.tsx:34-41 | with non-negative amounts the margin of the dashboard's gross and net profit never exceeds 100 |
| Dashboard.VehiclesInStock | components/Dashboard.tsx:43 | at most the number of vehicles; equal to it iff all are available; 0 iff none is |
| Dashboard.VehiclesInStockStep | components/Dashboard.tsx:43 | the count over `[v] + vs` is the count over `vs` plus one exactly when `v` is available, so it counts each available vehicle once |
| Dashboard.TargetChange | components/Dashboard.tsx:46-51 | a parsed value in [0, 100] becomes the target and nothing else changes; any other input leaves the profile as it was; a target in range stays in range |
| Dashboard.HandleTargetChange | components/Dashboard.tsx:46-51 | the store's profile becomes `TargetChange` of the old one |
| Dashboard.MonthAt | components/Dashboard.tsx:60-61 | the month `k` months after January of year 0: its index is `k` and its month lies in 0..11, as `new Date(y, m - i, 1)` normalises it |
| Dashboard.WindowConsecutive | components/Dashboard.tsx:59-61 | window months are consecutive and pairwise distinct |
| Dashboard.WindowEndsToday | components/Dashboard.tsx:59-61 | the last window month is today's month |
| Dashboard.SalesStep | components/Dashboard.tsx:77-86 | one more sale adds its price and profit to the totals of its own month only |
| Dashboard.ExpensesStep | components/Dashboard.tsx:89-97 | one more expense adds its amount to the total of its own month only |
| Dashboard.FindBucket | components/Dashboard.tsx:81-82 | finds a bucket with the month, or reports that no bucket has it |
| Dashboard.EmptyWindow | components/Dashboard.tsx:59-74 | six zeroed buckets for the window months, oldest first |
| Dashboard.PlaceSale | components/Dashboard.tsx:77-86 | the sale's price and profit are added to the bucket of its month, if any; every other figure is kept |
| Dashboard.AddSales | components/Dashboard.tsx:77-86 | each bucket's sales and gross profit are the sums over the sales dated in its month; expenses untouched |
| Dashboard.PlaceExpense | components/Dashboard.tsx:89-97 | the amount is added to the bucket of its month, if any; every other figure is kept |
| Dashboard.AddExpenses | components/Dashboard.tsx:89-97 | each bucket's expenses are the sum over the expenses dated in its month; sales figures untouched |
| Dashboard.ChartData | components/Dashboard.tsx:54-104 | six buckets of consecutive months, oldest first, ending at today's month; each totals exactly the records of its month (others are dropped) and its net profit is gross profit less expenses |
| Dashboard.ParsedMonthAsWritten | components/Dashboard.tsx:78-79 | the month the source derives from a date-only text: the date's own month, except on day 1 west of UTC, where it is the previous month |
| Dashboard.FirstOfOldestMonthDropped | components/Dashboard.tsx:77-86 | at UTC-3 a record dated on day 1 of the oldest window month falls into no bucket, although its month is the first bucket |
| Inventory.ExpensesOf | components/Inventory.tsx:150 | exactly the expenses linked to the vehicle id |
| Inventory.ExpensesOfInOrder | components/Inventory.tsx:150 | the linked expenses are a subsequence of the list, each kept exactly as often as it occurs, and no other expense at all |
| Inventory.VehicleExpenses | components/Inventory.tsx:32-35 | none without a selected vehicle; otherwise exactly the expenses linked to it |
| Inventory.SelectedTotalCost | components/Inventory.tsx:37-38 | 0 without a selection; otherwise the same figure as the vehicle's card (purchase price plus linked expenses) |
| Inventory.VehicleTotalCost | components/Inventory.tsx:150-151 | a vehicle with no linked expense costs exactly its purchase price |
| Inventory.CostAfterExpense | components/Inventory.tsx:150-151 | a new expense raises the total expenses by its amount, and a vehicle's cost by its amount iff it is linked to that vehicle |
| Inventory.CostBounds | components/Inventory.tsx:150-151 | with non-negative amounts, purchase price ≤ vehicle cost ≤ purchase price + all expenses |
| Inventory.FilteredVehicles | components/Inventory.tsx:109-113 | keeps a vehicle iff its lower-cased make, model or non-empty plate includes the lower-cased filter |
| Inventory.EmptySearchKeepsAll | components/Inventory.tsx:109-113 | an empty filter keeps every vehicle, in order |
| Inventory.FilteredInOrder | components/Inventory.tsx:109-113 | the filtered list is a subsequence of the inventory |
| Inventory.VehicleFromDraft | components/Inventory.tsx:66-71 | every field of the form (make, model, year, version, plate, mileage, color, fuel, prices, status, description), the new id and date, and the placeholder photo exactly when no photo was given |
| Inventory.InventoryView.constructor | components/Inventory.tsx:15-29 | nothing pending, blank forms |
| Inventory.InventoryView.HandleSubmit | components/Inventory.tsx:64-82 | the described vehicle is prepended and the form resets to Available with zero prices |
| Inventory.InventoryView.HandleAddExpense | components/Inventory.tsx:84-100 | no selected vehicle, no description or a zero amount changes nothing; otherwise an expense linked to the selected vehicle is prepended and the form resets to Manutenção |
| Inventory.InventoryView.ConfirmDelete | components/Inventory.tsx:102-107 | with a pending id the vehicle is removed and the id cleared; otherwise nothing changes |
| Sales.AvailableVehicles | components/Sales.tsx:23-25 | exactly the available vehicles, as many as the dashboard counts in stock |
| Sales.AvailableInOrder | components/Sales.tsx:23-25 | the available vehicles keep the inventory's order |
| Sales.ProjectedProfit | components/Sales.tsx:27-30 | price minus the purchase price of the first vehicle with the id; 0 without a price or such a vehicle |
| Sales.VehicleName | components/Sales.tsx:58-61 | make, model and version of the first vehicle with the id; 'Veículo desconhecido' when there is none |
| Sales.CustomerName | components/Sales.tsx:63-66 | the name of the first customer with the id; 'Cliente desconhecido' when there is none |
| Sales.FilteredSales | components/Sales.tsx:68-73 | keeps a sale iff its vehicle's or customer's lower-cased display name includes the lower-cased term |
| Sales.EmptySearchKeepsAllSales | components/Sales.tsx:68-73 | an empty term lists every sale, in order |
| Sales.SaleFoundByItsVehicleName | components/Sales.tsx:68-73 | searching for the vehicle name shown for a sale finds that sale |
| Sales.SortByName | components/Sales.tsx:19-21 | the sorted list holds exactly the customers, each as often as before |
| Sales.SortByNameSorted | components/Sales.tsx:19-21 | the sorted list is in name order and a permutation of the customers |
| Sales.SalesView.constructor | components/Sales.tsx:10-16 | empty selections, no price, today's date |
| Sales.SalesView.HandleSubmit | components/Sales.tsx:32-56 | an incomplete form, or a vehicle id that `find` does not locate, changes nothing; otherwise the sale is prepended with profit equal to the projected profit, each vehicle with the id becomes the first such vehicle with status Sold and every other field kept, all other vehicles are unchanged, and the form resets |
| Finance.Summary | components/Finance.tsx:21-23 | the same revenue, expenses and net profit as the dashboard; all 0 for empty lists |
| Finance.NetAfterExpense | components/Finance.tsx:21-23 | a new expense lowers the net by its amount and leaves the sales total alone |
| Finance.NetAfterSale | components/Finance.tsx:21-23 | a new sale raises the sales total by its price and the net by its profit |
| Finance.ExpenseFromDraft | components/Finance.tsx:29-35 | copies description, category and amount, links no vehicle, and dates it today when the date was cleared |
| Finance.FinanceView.constructor | components/Finance.tsx:13-18 | the blank form |
| Finance.FinanceView.HandleSubmit | components/Finance.tsx:25-47 | no description, no category or a zero amount changes nothing; otherwise the expense is prepended and the form resets |
| Customers.CustomerFromDraft | components/Customers.tsx:23 | every form field plus the new id |
| Customers.CustomersView.constructor | components/Customers.tsx:9-18 | the blank form (status Lead), nothing pending |
| Customers.CustomersView.HandleAdd | components/Customers.tsx:20-27 | no name changes nothing; otherwise the customer is prepended and the form resets to Lead |
| Customers.CustomersView.InitiateDelete | components/Customers.tsx:29-31 | only records the pending id |
| Customers.CustomersView.ConfirmDelete | components/Customers.tsx:33-38 | with a pending id every customer with it is removed and the id cleared; otherwise nothing changes |
| Customers.DeleteCustomer | components/Customers.tsx:29-38 | asking and confirming leaves exactly the customers with another id |
| Login.FriendlyMessage | components/Login.tsx:38-51 | total and never empty: the three credential codes, email-in-use, weak-password and the three configuration codes get their fixed texts; any other error its own message, else the generic text |
| Login.RecognisedCodesHideRawText | components/Login.tsx:39-46 | a recognised code always yields one of the fixed texts, whatever the error's message |
| Login.LoginView.constructor | components/Login.tsx:7-15 | sign-in mode, empty fields, no error, not loading |
| Login.LoginView.HandleSubmit | components/Login.tsx:17-34 | differing passwords show the mismatch text and leave the store alone; otherwise registering shows no error (registered iff the email was free, then signed in on the empty workspace); a sign-in shows the failure text iff no user matches and then leaves the store unchanged, and otherwise signs in the first match with the workspace its saved document gives; loading always ends |
| Login.LoginView.HandleFailure | components/Login.tsx:35-54 | a thrown error shows its friendly message and loading ends |
| SaasAdmin.LicenseKey | components/SaaSAdmin.tsx:32-33 | exactly `JoinKey` of the three upper-cased parts: 'SAAS-' and the parts joined by dashes, with no lower-case letter |
| SaasAdmin.JoinKeyParts | components/SaaSAdmin.tsx:33 | each part can be read back from the key at its position |
| SaasAdmin.JoinKeyInjective | components/SaaSAdmin.tsx:33 | keys from parts of equal lengths are equal only when the parts are |
| SaasAdmin.GeneratedBy | components/SaaSAdmin.tsx:38 | the current user's email, or 'admin' when there is no user or no email |
| SaasAdmin.LicenseAdmin.constructor | components/SaaSAdmin.tsx:8-11 | empty list, not loading, no key |
| SaasAdmin.LicenseAdmin.FetchLicenses | components/SaaSAdmin.tsx:15-25 | a stored list replaces the shown one; a missing or unreadable entry leaves it; loading ends |
| SaasAdmin.LicenseAdmin.GenerateLicense | components/SaaSAdmin.tsx:31-56 | an unreadable entry changes nothing; otherwise an available licence by `GeneratedBy` is stored in front of the previous ones, its key is shown and the list is read back; loading ends |
| SaasAdmin.GenerateTwice | components/SaaSAdmin.tsx:44-49 | two issues in a row list the newer licence first, both available |

## Left out

- Inventory.InventoryView.HandleAddExpense: the draft may hold any `ExpenseCategory`; the model does not restrict it to the four options the vehicle form offers (Manutenção, Documentação, Peças, Outros). Documentação and Peças lie outside the categories the expense type declares (types.ts:56) and behave like any other non-maintenance category.
- Local storage and JSON: a stored entry is a `Slot` (absent, unreadable or parsed); `JSON.parse`/`stringify` are not modelled. A stored value that parses but has the wrong shape (for example a licence entry that is not a list) is not modelled.
- The write-back of the user list (services/store.tsx:68-72 and 187) is not modelled: `StoreState.users` is the list, and only the per-user data documents are kept in `storage`.
- The `lastUpdated` timestamp of the saved document is left out of `Bundle`.
- The persistence effect runs when React decides to; here it is the method `Persist`, which a caller invokes after an action. React's batching of state updates and stale closures (such as `addSale` reading `vehicles`) are not modelled: every action runs to completion in order.
- Ids from `Date.now()` and `Math.random()`, timestamps, the random key parts of a licence and the current date are parameters.
- `toLowerCase`, `toUpperCase` and `localeCompare` act on ASCII letters only: `Lower`/`Upper` map A–Z/a–z and leave every other character alone, and `NameLeq` orders names by character code, not by the pt-BR collation.
- Sales.SortByName: stability for equal names is not stated, although the insertion keeps the earlier customer first.
- Money is an unbounded `int`; JavaScript floating-point sums and `Number(...)` conversions are not modelled. The margin and the target are `real`; `parseFloat` is a parameter `Option<real>` (None for NaN).
- HTML `required` and `type=number` checks in the forms are not modelled; only the guards in the handlers are.
- Modal and form visibility flags, menus, chart labels (`toLocaleDateString`), currency formatting, the AI description (services/gemini.ts), image upload, copy-to-clipboard and `alert` are UI and are left out.
- Login's catch block is reached when `login` or `register` throws. In the local store the only call inside them that can throw is the user-list `localStorage.setItem` in `register` (services/store.tsx:187), which fails when storage refuses the write, for instance over quota; the per-user data writes run in the persistence effect, outside `login` and `register`, and cannot reach that catch block. Storage writes that fail are not modelled: `HandleSubmit` has no throwing path, and `HandleFailure` models the catch and finally blocks on their own.
- Login.LoginView.HandleSubmit: `register` is called without a role, so the role of a user created here is `None`.
- services/dropbox.ts, services/firebase.ts, services/gemini.ts, components/Settings.tsx and App.tsx are not part of this model.

## Findings

| source | as written | input that shows it | evidently intended | confidence | as-written member | corrected member |
|---|---|---|---|---|---|---|
| components/Dashboard.tsx:78-79 | `new Date(sale.date)` parses a date-only text as midnight UTC, then `getMonth` reads the month in local time | in UTC-3, a sale dated on day 1 of the oldest chart month (for example `2024-05-01` when today is in October 2024) is counted in April, which is not in the window, so it is dropped; a sale on day 1 of a later month is counted one month early | each record is counted in the month written in its date | not executed | Dashboard.FirstOfOldestMonthDropped | Dashboard.ChartData |
