# lenden: the shop-credit ("baki") ledger, modelled in Dafny

lenden is a Next.js client for a Bangladeshi shop's credit book. A shop owner ("dokandar")
records credits (baki) and payments against customers. The customer confirms or rejects each
entry, and a confirmed entry moves that customer's balance. This project models the
client-side part of that workflow and proves properties about it:

- **The store** of `src/contexts/AppContext.tsx` is the class `AppContext.AppStore`. Its fields
  are the React state, with one method per action. Each method is proved to move the store
  exactly as a pure transition of module `LedgerData` does, and to keep the store invariant
  `LedgerData.WellFormed`:
  - ids are distinct within each list and below the id counter;
  - each list holds its own kind of entry;
  - every entry names an existing customer.
- **The lemmas of `LedgerData` and `StoreTotals`** state what the actions do to balances,
  entries, notifications and the session. They also state how the total due and the pending
  count move. The main property is reconciliation: every balance equals confirmed credits minus
  confirmed payments.
  - Confirming or rejecting a *pending* entry keeps a reconciled store reconciled.
  - The store never checks that an entry is still pending. Confirming an already confirmed
    entry, or rejecting one, therefore breaks reconciliation.
  - The demo data is not reconciled to begin with.
- **The derived views** are pure functions with their specifications proved:
  - the ledger page's status and day-range filters and its confirmed-only totals;
  - RecentActivity's merged, newest-first list (a stable sort);
  - the dashboard and customer-page aggregates;
  - the customer search;
  - CustomerList's sign labels.
- **The formatters**: `formatRelativeTime` as an integer ladder, `formatPhone` with its
  inverse, and the two label tables.
- **The forms**: the auth, login, signup and setup pages and the six modals. Each validator
  is a method whose errors are proved to be set exactly when their rule fails. Each payload
  builder is a function with its shape proved. The modals are classes whose submit and close
  methods state the new field values.
- **The trial banner** is a class over the one local-storage value. It is proved to show
  exactly three days or more after a dismissal.

Modules follow the source files one to one. The exceptions are the shared helpers: `Util`
(`Option`, `map`/`filter`/`reduce`), `Text` (JavaScript `trim`, `\s`, `\d`, `includes`,
`toLowerCase`, `split`/`join`, `String(n)`, `parseInt`), `Display` (`Math.abs` and the
colour tones), `Forms` (the phone, password and e-mail rules that many forms share) and
`StoreTotals` (the aggregates of the two dashboards).

Time is an integer count of milliseconds, and `Date.now()` is a `now` parameter. Money is
an integer. The ids `Date.now()` produced come from a counter, `nextId`. Routes are the
values of `Forms.Route`.

## Model

| member | source | states |
|---|---|---|
| AppContext.AppStore.constructor | src/contexts/AppContext.tsx:143-159 | the store starts signed out, role dokandar, with the demo customers, entries and notifications, and satisfies the invariant |
| AppContext.AppStore.TrialDaysLeft | src/contexts/AppContext.tsx:159 | the trial has 25 days left |
| AppContext.AppStore.Login | src/contexts/AppContext.tsx:162-179 | the new store is `LedgerData.Login` of the old one, and the invariant is kept |
| AppContext.AppStore.Signup | src/contexts/AppContext.tsx:181-193 | the new store is `LedgerData.Signup` of the old one, and the invariant is kept |
| AppContext.AppStore.Logout | src/contexts/AppContext.tsx:195-200 | the new store is `LedgerData.Logout` of the old one, and the invariant is kept |
| AppContext.AppStore.SetupShop | src/contexts/AppContext.tsx:202-210 | the new store is `LedgerData.SetupShop` of the old one, and the invariant is kept |
| AppContext.AppStore.SwitchRole | src/contexts/AppContext.tsx:212-221 | the new store is `LedgerData.SwitchRole` of the old one, and the invariant is kept |
| AppContext.AppStore.AddCustomer | src/contexts/AppContext.tsx:224-233 | the new store is `LedgerData.AddCustomer` of the old one, and the invariant is kept by the fresh id |
| AppContext.AppStore.AddBaki | src/contexts/AppContext.tsx:236-261 | the new store is `AddEntry` for a credit: nothing for an unknown customer, else one pending credit and one notification in front; the invariant is kept |
| AppContext.AppStore.ConfirmBaki | src/contexts/AppContext.tsx:263-279 | the new store is `Confirm` for credits: every entry with the id confirmed, and that customer's balance raised by the amount; the invariant is kept |
| AppContext.AppStore.RejectBaki | src/contexts/AppContext.tsx:281-287 | the new store is `Reject` for credits: only the status changes; the invariant is kept |
| AppContext.AppStore.AddPayment | src/contexts/AppContext.tsx:290-315 | the new store is `AddEntry` for a payment, with the same shape as for a credit; the invariant is kept |
| AppContext.AppStore.ConfirmPayment | src/contexts/AppContext.tsx:317-333 | the new store is `Confirm` for payments: the customer's balance is lowered by the amount; the invariant is kept |
| AppContext.AppStore.RejectPayment | src/contexts/AppContext.tsx:335-341 | the new store is `Reject` for payments; the invariant is kept |
| AppContext.AppStore.MarkNotificationRead | src/contexts/AppContext.tsx:344-348 | the new store is `LedgerData.MarkNotificationRead` of the old one |
| AppContext.AppStore.ClearAllNotifications | src/contexts/AppContext.tsx:350-352 | the new store is `LedgerData.ClearAllNotifications` of the old one |
| AppContext.AppStore.Subscribe | src/contexts/AppContext.tsx:355-357 | the new store is the old one with the subscription flag set |
| LedgerData.FreshId | src/contexts/AppContext.tsx:226 | a new id is its one-letter prefix followed by the decimal counter |
| LedgerData.FreshIdIsNew | src/contexts/AppContext.tsx:226 | an id whose number is below the counter is never the fresh id |
| LedgerData.FreshIdSerial | src/contexts/AppContext.tsx:243 | the fresh id's number is below the incremented counter |
| LedgerData.FindCustomer | src/contexts/AppContext.tsx:237 | `find` yields nothing exactly when no customer has the id, else the first customer of the list with that id |
| LedgerData.FindEntry | src/contexts/AppContext.tsx:265 | `find` yields nothing exactly when no entry has the id, else the first entry of the list with that id |
| LedgerData.FirstIndexOf | src/contexts/AppContext.tsx:265 | the first position holding the id: no earlier entry has it, and none exists when absent |
| LedgerData.MarkConfirmed | src/contexts/AppContext.tsx:266-270 | same length; each entry with the id is confirmed with `confirmedAt = now`; the others are untouched |
| LedgerData.MarkRejected | src/contexts/AppContext.tsx:282-286 | same length; each entry with the id is rejected; the others are untouched |
| LedgerData.AdjustBalance | src/contexts/AppContext.tsx:271-277 | same length; customers with the id get balance + delta and `lastTransaction = now`; the others are untouched |
| LedgerData.MarkRead | src/contexts/AppContext.tsx:345-347 | same length; those with the id become read; the others are untouched |
| LedgerData.MarkAllRead | src/contexts/AppContext.tsx:351 | same length; every notification read and otherwise unchanged |
| LedgerData.ConfirmedAmountAfterConfirm | src/contexts/AppContext.tsx:266-270 | with unique ids, confirming adds the entry's amount to its customer's confirmed sum unless it was already confirmed |
| LedgerData.ConfirmedAmountAfterReject | src/contexts/AppContext.tsx:282-286 | with unique ids, rejecting removes the entry's amount from its customer's confirmed sum exactly when it was confirmed |
| LedgerData.ConfirmDrift | src/contexts/AppContext.tsx:263-279 | confirming moves a customer's drift (balance minus confirmed credits plus confirmed payments) only when the entry was already confirmed, by its signed amount |
| LedgerData.RejectDrift | src/contexts/AppContext.tsx:281-287 | rejecting leaves balances, and moves the drift of a confirmed entry's customer by its signed amount |
| LedgerData.UnknownIdChangesNothing | src/contexts/AppContext.tsx:263-287 | confirm and reject with an id no entry has leave the whole store unchanged |
| LedgerData.ResolvePendingKeepsReconciled | src/contexts/AppContext.tsx:263-287 | confirming or rejecting a pending entry keeps a reconciled store reconciled |
| LedgerData.DoubleConfirmBreaksReconciled | src/contexts/AppContext.tsx:271-278 | with no pending guard, confirming a confirmed non-zero entry breaks reconciliation |
| LedgerData.RejectConfirmedBreaksReconciled | src/contexts/AppContext.tsx:281-287 | rejecting a confirmed non-zero entry keeps its balance change and so breaks reconciliation |
| LedgerData.EntryCustomer | src/contexts/AppContext.tsx:271-277 | in a well-formed store, the customer an entry names is at some position |
| LedgerData.AddEntryEffect | src/contexts/AppContext.tsx:236-261 | unknown customer: no change; known: one pending entry with the given customer, amount, detail and the customer's name in front, one unread notification of the matching kind in front, the other list and all customers and drifts unchanged |
| LedgerData.AddCustomerEffect | src/contexts/AppContext.tsx:224-233 | one customer with balance 0 and the given phone and name in front, a new id, the earlier customers and the entries unchanged |
| LedgerData.NotificationEffects | src/contexts/AppContext.tsx:344-352 | mark-read sets `read` only where the id matches; clear-all sets every one read and is idempotent; length, order and other fields are kept |
| LedgerData.SessionEffects | src/contexts/AppContext.tsx:162-210 | logout clears the session; login sets the profile and, for a dokandar, a shop; signup sets role and profile and clears `hasShop` for a dokandar; setup sets the shop; none touches customers or entries |
| LedgerData.AddCustomerKeepsWellFormed | src/contexts/AppContext.tsx:224-233 | adding a customer keeps the invariant |
| LedgerData.AddEntryKeepsWellFormed | src/contexts/AppContext.tsx:236-315 | adding a credit or a payment keeps the invariant |
| LedgerData.ConfirmKeepsWellFormed | src/contexts/AppContext.tsx:263-333 | confirming keeps the invariant |
| LedgerData.RejectKeepsWellFormed | src/contexts/AppContext.tsx:281-341 | rejecting keeps the invariant |
| LedgerData.InitialStateWellFormed | src/contexts/AppContext.tsx:113-139 | the demo data satisfies the invariant |
| LedgerData.InitialStateNotReconciled | src/contexts/AppContext.tsx:114 | demo customer c1 has balance 2500 while its confirmed credits minus payments are 0, so the demo store is not reconciled |
| StoreTotals.PendingOfSpec | src/app/customer/page.tsx:26-27 | the pending list is exactly the pending entries, in order, and its length is their count |
| StoreTotals.PendingCountZero | src/app/customer/page.tsx:28 | the pending count is zero exactly when neither list has a pending entry |
| StoreTotals.TotalDueAdjust | src/app/dashboard/page.tsx:41 | adjusting one customer by delta moves the total due by delta when the id exists, else not at all |
| StoreTotals.AddsKeepTotalDue | src/app/dashboard/page.tsx:41 | adding a customer, a credit or a payment leaves the total due |
| StoreTotals.ConfirmMovesTotalDue | src/app/customer/page.tsx:31 | confirming moves the total due by exactly the signed amount of the entry found, whatever its status, and not at all for an unknown id |
| StoreTotals.RejectKeepsTotalDue | src/app/customer/page.tsx:31 | rejecting never moves the total due |
| StoreTotals.PerCustomerIsTotal | src/app/ledger/page.tsx:73-79 | when every entry names one of a list of distinct customers, the per-customer confirmed sums add up to the ledger's confirmed total |
| StoreTotals.ReconciledTotalDue | src/app/dashboard/page.tsx:41 | in a well-formed reconciled store the dashboard's total due equals the ledger page's running balance |
| DashboardPage.OverviewSpec | src/app/dashboard/page.tsx:41-44 | the card's pending entries are the pending credits plus pending payments, never more than the activity tab count (src/app/dashboard/page.tsx:111); the customers tab counts the customers; the banner shows unless subscribed; reconciled total due equals the running balance |
| DashboardPage.ActivityTabHasNoActions | src/app/dashboard/page.tsx:118 | the activity tab shows no confirm or reject buttons |
| DashboardPage.AddEntryMovesOverview | src/app/dashboard/page.tsx:53-65 | adding a credit or payment for a known customer raises the pending and activity counts by one and leaves the total due; unknown: nothing moves |
| DashboardPage.AddCustomerMovesOverview | src/app/dashboard/page.tsx:46-51 | adding a customer raises the customers tab by one and leaves total due and pending count |
| DashboardPage.HandleAddCustomer | src/app/dashboard/page.tsx:46-51 | the store moves as `addCustomer` with the same arguments |
| DashboardPage.HandleAddBaki | src/app/dashboard/page.tsx:53-58 | the store moves as `addBaki` with the same arguments |
| DashboardPage.HandleAddPayment | src/app/dashboard/page.tsx:60-65 | the store moves as `addPayment` with the same arguments |
| CustomerPage.PendingPanelSpec | src/app/customer/page.tsx:83-103 | the panel appears exactly when some entry is pending, and every row in it is a pending transaction with buttons |
| CustomerPage.PanelEntry | src/app/customer/page.tsx:97-103 | a transaction of the panel is the pending entry with that id in its own list |
| CustomerPage.PanelActionsKeepReconciled | src/app/customer/page.tsx:33-51 | confirming or rejecting from the panel keeps a reconciled store reconciled |
| CustomerPage.HandleConfirm | src/app/customer/page.tsx:33-41 | a credit is confirmed with `confirmBaki`, anything else with `confirmPayment` |
| CustomerPage.HandleReject | src/app/customer/page.tsx:43-51 | a credit is rejected with `rejectBaki`, anything else with `rejectPayment` |
| LedgerPage.FilterByDateByDay | src/app/ledger/page.tsx:29-56 | no bound passes everything; otherwise an entry passes exactly when its day is on or after the from-day and on or before the to-day, for each bound that is set |
| LedgerPage.FilteredSpec | src/app/ledger/page.tsx:58-70 | an entry is kept exactly when its status matches and its date (`date`, else `createdAt`) is in range; the result is an order-preserving subsequence; "all" with no range keeps everything |
| LedgerPage.OnlyKeepsThatStatus | src/app/ledger/page.tsx:60 | a specific status filter keeps only entries of that status |
| LedgerPage.TotalConfirmedIsConfirmedSum | src/app/ledger/page.tsx:73-79 | the totals are the sum of the amounts of the confirmed entries of the whole list |
| LedgerPage.FilterButtonsMatchLabels | src/app/ledger/page.tsx:83-88 | the first button is "all"; the status buttons carry the status labels of the formatters; no filter value has two buttons |
| LedgerPage.ButtonIndex | src/app/ledger/page.tsx:83-88 | every filter value has a button: the button at its index is that filter |
| LedgerPage.EmptyStateIff | src/app/ledger/page.tsx:245 | the empty state appears exactly when both filtered lists are empty; with no filter set, exactly when both lists are empty |
| LedgerPage.BalanceDisplay | src/app/ledger/page.tsx:81-126 | the colour is destructive exactly for a positive balance, and colour plus absolute amount give the balance back |
| RecentActivity.BakiTransactions | src/components/dashboard/RecentActivity.tsx:36-44 | one transaction per credit, in order |
| RecentActivity.PaymentTransactions | src/components/dashboard/RecentActivity.tsx:45-53 | one transaction per payment, in order |
| RecentActivity.SortSpec | src/components/dashboard/RecentActivity.tsx:54 | the sort is newest first, a permutation, and stable among equal timestamps |
| RecentActivity.InsertSorted | src/components/dashboard/RecentActivity.tsx:54 | inserting into a newest-first list keeps it newest first |
| RecentActivity.TransactionsSpec | src/components/dashboard/RecentActivity.tsx:35-54 | the merged list has every credit and payment exactly once, newest first, credits before payments among equal timestamps |
| RecentActivity.TransactionOrigin | src/components/dashboard/RecentActivity.tsx:35-53 | every listed transaction was made from a credit (tagged baki) or a payment (tagged payment) |
| RecentActivity.TransactionTags | src/components/dashboard/RecentActivity.tsx:41-50 | payments never carry a description; credits carry their own |
| RecentActivity.DisplayNameFallback | src/components/dashboard/RecentActivity.tsx:40 | the name falls back from the customer's name to its phone to the fixed word, and is never empty |
| RecentActivity.RenderSpec | src/components/dashboard/RecentActivity.tsx:56-137 | the empty state appears exactly for two empty lists; buttons appear exactly on pending rows with `showActions` and both callbacks; credits are "+" and payments "-" |
| CustomersPage.Search | src/app/customers/page.tsx:21-24 | it is `Util.Filter` with the match test: every customer kept matches (name lower-cased contains the lower-cased query, or phone contains the query), and every matching customer is kept |
| CustomersPage.SearchIsSubsequence | src/app/customers/page.tsx:21 | the result is an order-preserving selection of the customers |
| CustomersPage.EmptyQueryKeepsAll | src/app/customers/page.tsx:21-24 | the empty query keeps every customer |
| CustomersPage.LongerQueryNarrows | src/app/customers/page.tsx:21-24 | a query containing the old one gives a subsequence of the old result |
| CustomersPage.EmptyStateSpec | src/app/customers/page.tsx:66-83 | empty query: the "no customers" block with an add button exactly when there are none; otherwise the "not found" block exactly when nobody matches |
| CustomerList.RowsOf | src/components/dashboard/CustomerList.tsx:29-65 | one row per customer, in order |
| CustomerList.SignSplit | src/components/dashboard/CustomerList.tsx:55-59 | label and colour follow the three-way sign split: due, advance, zero |
| CustomerList.RowDeterminesBalance | src/components/dashboard/CustomerList.tsx:56-59 | the word and the absolute amount shown give the balance back |
| CustomerList.RenderShape | src/components/dashboard/CustomerList.tsx:13-32 | the empty state exactly for no customers; otherwise one row each linking to `/customers/{id}`, different ids giving different links |
| Formatters.AgeBuckets | src/lib/formatters.ts:11-46 | each bucket holds the whole number of elapsed units with the count in the bucket's range; under a minute (or in the future) is "just now" |
| Formatters.ZeroCountQuirks | src/lib/formatters.ts:34-45 | 28 to 29 days give "0 months ago" and 360 to 364 days give "0 years ago" |
| Formatters.JustNowIffUnderAMinute | src/lib/formatters.ts:13-17 | "just now" exactly when fewer than 60 whole seconds have elapsed |
| Formatters.FormatPhone | src/lib/formatters.ts:63-69 | 11 characters: first five, a dash, the other six; any other length unchanged |
| Formatters.FormatPhoneRoundTrip | src/lib/formatters.ts:63-69 | deleting the dash gives the phone back |
| Formatters.StatusLabelTable | src/lib/formatters.ts:86-93 | the three statuses get three distinct labels; any other key is returned unchanged |
| Formatters.PaymentMethodLabelTable | src/lib/formatters.ts:74-81 | the three methods get three distinct labels; any other key is returned unchanged |
| Forms.BdMobileShape | src/app/auth/page.tsx:44 | the mobile pattern holds exactly for 11 ASCII digits starting "01" with third digit 3 to 9 |
| Forms.PasswordExamples | src/app/auth/page.tsx:50 | the length rule counts UTF-16 code units: three emoji pass, five digits do not |
| Forms.BdMobileExamples | src/app/auth/page.tsx:44 | a typical number matches; a wrong prefix, a short number and a +880 form do not |
| Forms.CleanPhone | src/components/modals/EditShopModal.tsx:55 | the cleaned phone is the phone filtered to the characters other than whitespace, '-' and '+', so none of those remain |
| Forms.CleanPhoneKeeps | src/components/modals/EditShopModal.tsx:55 | cleaning keeps every other character, in order, and shortens the phone by exactly the number of deleted characters |
| Forms.CleanPhoneIdempotent | src/components/modals/EditShopModal.tsx:55 | cleaning twice is cleaning once |
| Forms.CleanPhoneOfTrim | src/components/modals/EditShopModal.tsx:73 | trimming before cleaning changes nothing |
| Forms.EmailPatternIff | src/components/modals/EditProfileModal.tsx:50-51 | the regular expression holds exactly when there is one '@', no whitespace, a non-empty local part and a '.' strictly inside the domain |
| Forms.EmailExamples | src/components/modals/EditProfileModal.tsx:50 | "a@b.c" matches; "a@b", "@b.c" and "a@.c" do not |
| Forms.OrUndefined | src/app/setup/page.tsx:57 | an empty text becomes undefined; any other text is kept |
| Forms.OrEmpty | src/components/modals/EditShopModal.tsx:30-32 | an absent prop value becomes "" and a present one is kept |
| Forms.OrUndefinedRoundTrip | src/components/modals/EditShopModal.tsx:30-40 | reading a field back from a value and sending it again gives the same value |
| AuthPage.InitialMode | src/app/auth/page.tsx:21-23 | signup mode exactly when the `mode` parameter is "signup" |
| AuthPage.ValidateForm | src/app/auth/page.tsx:39-63 | each error exactly when its rule fails, the name only in signup mode; valid exactly when no error |
| AuthPage.HandleSubmit | src/app/auth/page.tsx:65-99 | the errors are always those of `validateForm`, all empty exactly for a valid form; invalid: the store is unchanged and there is no route; login: role switch then login, to the dashboard or the customer page; signup: to setup or the customer page |
| AuthPage.LandingMatchesStore | src/app/auth/page.tsx:75-95 | with `login` seeing the switched role: a dokandar who logs in has a shop, one who signs up has none, and the profile carries the chosen role |
| AuthPage.StaleLogin | src/app/auth/page.tsx:76-77 | the login branch as written: `currentRole` becomes the chosen role, but the profile and the shop follow the role from before the switch |
| AuthPage.StaleLoginMismatch | src/app/auth/page.tsx:76-77 | as written, choosing a role other than the current one leaves the profile's role different from the store's; with the switch seen they agree |
| AuthPage.StaleLoginFromStart | src/contexts/AppContext.tsx:162-179 | from the first store a customer login gets, as written, the shop owner's demo profile and a shop; with the switch seen, the demo customer and no shop |
| SignupPage.SplitNameSpec | src/app/auth/signup/page.tsx:102-104 | the first name has no space; the last name is empty exactly for a one-word name; first plus " " plus last gives the trimmed name |
| SignupPage.HandleSubmit | src/app/auth/signup/page.tsx:68-105 | the three errors are exactly those of the signup checks; `register` is called exactly for a valid form, with the split name |
| SignupPage.RegisteredRedirect | src/app/auth/signup/page.tsx:111-118 | shop_owner goes to setup, customer to the customer page, anything else to the dashboard |
| LoginPage.HandleSubmit | src/app/auth/login/page.tsx:28-57 | the phone and password errors are exactly those of the two checks; `login` is called exactly when both pass, with both as typed |
| LoginPage.LoginRedirect | src/app/auth/login/page.tsx:60-64 | customer goes to the customer page and anything else to the dashboard |
| SetupPage.ValidateForm | src/app/setup/page.tsx:29-45 | each error exactly when its rule fails; valid exactly when neither is set |
| SetupPage.HandleSubmit | src/app/setup/page.tsx:29-65 | the errors are exactly those of `validateForm`; invalid: the store is unchanged; valid: `setupShop` with the name and phone as typed and an empty address as undefined, then the dashboard |
| SetupPage.SetupResult | src/app/setup/page.tsx:57 | after setup the store's shop has the entered name and phone, no address exactly when none was typed, and nothing else moves |
| AddCustomerModal.Validate | src/components/modals/AddCustomerModal.tsx:22-38 | each error exactly when its rule fails; valid exactly when neither is set |
| AddCustomerModal.Modal.constructor | src/components/modals/AddCustomerModal.tsx:17-19 | the form starts empty with no errors |
| AddCustomerModal.Modal.HandleSubmit | src/components/modals/AddCustomerModal.tsx:40-53 | submits `(phone, name)` exactly for a valid form, then clears and closes; otherwise keeps the fields and shows each failed rule's error |
| AddCustomerModal.Modal.HandleClose | src/components/modals/AddCustomerModal.tsx:55-60 | clears the form and closes |
| AddBakiModal.Validate | src/components/modals/AddBakiModal.tsx:27-43 | customer error exactly for no customer; amount error exactly for empty text or a number at most 0 |
| AddBakiModal.AmountRule | src/components/modals/AddBakiModal.tsx:36 | an amount passes exactly when typed and positive or not a number, so NaN gets through |
| AddBakiModal.Modal.constructor | src/components/modals/AddBakiModal.tsx:21-24 | the form starts empty with no errors |
| AddBakiModal.Modal.HandleSubmit | src/components/modals/AddBakiModal.tsx:45-59 | a valid form submits customer, `Number(amount)` and the description (empty as undefined), then clears and closes; an invalid one keeps the fields; always, the customer error is set exactly when no customer is chosen and the amount error exactly when the amount is empty or a number `<= 0` |
| AddBakiModal.Modal.HandleClose | src/components/modals/AddBakiModal.tsx:61-67 | clears the form and closes |
| AddPaymentModal.PaymentMethodsOffered | src/components/modals/AddPaymentModal.tsx:19-23 | cash, bkash and nagad are each offered exactly once, with distinct labels |
| AddPaymentModal.Modal.constructor | src/components/modals/AddPaymentModal.tsx:26-29 | the form starts empty with cash selected |
| AddPaymentModal.Modal.HandleSubmit | src/components/modals/AddPaymentModal.tsx:50-64 | a valid form submits customer, `Number(amount)` and method, then resets to cash and closes; an invalid one keeps the fields; always, the customer error is set exactly when no customer is chosen and the amount error exactly when the amount is empty or a number `<= 0` |
| AddPaymentModal.Modal.HandleClose | src/components/modals/AddPaymentModal.tsx:66-72 | resets the form to cash and closes |
| EditShopModal.Validate | src/components/modals/EditShopModal.tsx:45-64 | name key exactly for a blank name; phone key exactly for a typed phone whose cleaned form is not 10 to 11 digits; valid exactly for no key |
| EditShopModal.PhoneRule | src/components/modals/EditShopModal.tsx:53-60 | an empty or whitespace-only phone never draws an error |
| EditShopModal.PayloadSpec | src/components/modals/EditShopModal.tsx:73-88 | trimmed name; cleaned phone, null exactly when cleaning leaves nothing; trimmed address present exactly when not blank |
| EditShopModal.ValidPayload | src/components/modals/EditShopModal.tsx:48-88 | a valid form sends a non-blank name and a phone that is null or 10 to 11 digits |
| EditShopModal.Prepare | src/components/modals/EditShopModal.tsx:66-88 | a body exactly for a valid form, and it is the built payload; the name error is present exactly for a blank name and the phone error exactly for a rejected phone, each with its message |
| EditShopModal.Modal.constructor | src/components/modals/EditShopModal.tsx:30-34 | the fields start from the `shop` prop, with absent values as "" |
| EditShopModal.Modal.OnOpenOrShopChange | src/components/modals/EditShopModal.tsx:36-43 | while open the fields are reloaded from `shop` and the errors cleared; closed, nothing changes |
| EditShopModal.Modal.HandleSubmit | src/components/modals/EditShopModal.tsx:66-90 | the request starts exactly for a valid form, with the built body; the name error is present exactly for a blank name and the phone error exactly for a rejected phone, each with its message |
| EditShopModal.Modal.FinishSubmit | src/components/modals/EditShopModal.tsx:96-108 | a success closes the dialog; either way submitting stops |
| EditShopModal.Modal.HandleClose | src/components/modals/EditShopModal.tsx:111-115 | closes, unless a request is under way |
| EditProfileModal.EmailRule | src/components/modals/EditProfileModal.tsx:49-53 | an e-mail is rejected exactly when typed and its trimmed form fails the pattern |
| EditProfileModal.Validate | src/components/modals/EditProfileModal.tsx:45-58 | the e-mail key exactly for a rejected e-mail; the names are never checked |
| EditProfileModal.PayloadSpec | src/components/modals/EditProfileModal.tsx:66-70 | each field is dropped exactly when blank and otherwise trimmed; a valid sent e-mail matches the pattern |
| EditProfileModal.Prepare | src/components/modals/EditProfileModal.tsx:60-70 | a body exactly when the e-mail is not rejected, and it is the built payload; otherwise the e-mail error carries its message |
| EditProfileModal.Modal.constructor | src/components/modals/EditProfileModal.tsx:30-34 | the fields start from the `user` prop, with absent values as "" |
| EditProfileModal.Modal.OnOpenOrUserChange | src/components/modals/EditProfileModal.tsx:36-43 | while open the fields are reloaded from `user` and the errors cleared |
| EditProfileModal.Modal.HandleSubmit | src/components/modals/EditProfileModal.tsx:60-70 | the request starts exactly for an acceptable e-mail, with the built body; otherwise the e-mail error carries its message |
| EditProfileModal.Modal.FinishSubmit | src/components/modals/EditProfileModal.tsx:76-88 | a success closes the dialog; either way submitting stops |
| EditProfileModal.Modal.HandleClose | src/components/modals/EditProfileModal.tsx:91-95 | closes, unless a request is under way |
| EditCustomerModal.Validate | src/components/modals/EditCustomerModal.tsx:40-49 | the name key exactly for a blank name; valid exactly for no key |
| EditCustomerModal.ValidPayload | src/components/modals/EditCustomerModal.tsx:57-59 | a valid body holds a non-empty name with no whitespace at either end |
| EditCustomerModal.Modal.constructor | src/components/modals/EditCustomerModal.tsx:29-31 | the name starts from the prop, "" when absent |
| EditCustomerModal.Modal.OnOpenOrCustomerChange | src/components/modals/EditCustomerModal.tsx:33-38 | while open the name is reloaded and the errors cleared; closed, nothing changes |
| EditCustomerModal.Modal.HandleSubmit | src/components/modals/EditCustomerModal.tsx:51-59 | the request for this customer's id starts exactly for a non-blank name, with the trimmed name; otherwise the name error carries its message |
| EditCustomerModal.Modal.FinishSubmit | src/components/modals/EditCustomerModal.tsx:65-77 | a success closes the dialog; either way submitting stops |
| EditCustomerModal.Modal.HandleClose | src/components/modals/EditCustomerModal.tsx:80-84 | closes, unless a request is under way |
| TrialBanner.Banner.constructor | src/components/shared/TrialBanner.tsx:17 | hidden at first, local storage as given |
| TrialBanner.Banner.Mount | src/components/shared/TrialBanner.tsx:19-41 | visible exactly when nothing usable is stored or the stored time is at least three days old; the stored time is then removed |
| TrialBanner.Banner.Dismiss | src/components/shared/TrialBanner.tsx:43-47 | hides the banner and stores the current time as text |
| TrialBanner.NothingStoredShows | src/components/shared/TrialBanner.tsx:23-27 | with nothing stored the banner shows |
| TrialBanner.StoredTimeWindow | src/components/shared/TrialBanner.tsx:29-40 | for a stored time it shows exactly three days or more later, inclusive, and the time is then removed, otherwise kept; future times stay hidden |
| TrialBanner.UnparsableStaysHidden | src/components/shared/TrialBanner.tsx:29-34 | a stored text `parseInt` cannot read (NaN) keeps the banner hidden and is never removed |
| TrialBanner.LettersAreUnparsable | src/components/shared/TrialBanner.tsx:29 | "abc" is such a text |
| TrialBanner.DismissThenMount | src/components/shared/TrialBanner.tsx:19-47 | after a dismissal at t, a later mount shows the banner exactly when three days have passed |
| Text.ParseIntIntString | src/components/shared/TrialBanner.tsx:29 | `parseInt` reads back what `Date.now().toString()` wrote |
| Text.LowerPreservesIncludes | src/app/customers/page.tsx:22 | lower-casing keeps containment |
| Text.Utf16LengthBmp | src/app/auth/page.tsx:50 | JavaScript's `length` equals the character count exactly when no character lies beyond U+FFFF |
| Text.BlankIffAllWhitespace | src/app/auth/page.tsx:56 | `!s.trim()` holds exactly when every character is whitespace |

## Left out

- The backend. The HTTP clients of `src/actions/*.ts` and the API route are not part of this model. The edit modals' PATCH requests are represented by the body their submit returns, and by `FinishSubmit(succeeded)` for how the request ended.
- `register`, `refreshShop`, and a `login` that answers with a user type. These are called by the signup, dashboard and login pages but do not exist in the store. The stand-alone signup and login pages therefore stop at the call and take the answer as an input.
- SignupPage.HandleSubmit and LoginPage.HandleSubmit: stop at the `register`/`login` call, because those functions are not part of the store.
- React mechanics: `useState` batching, `useCallback` stale closures (`confirmBaki` reads `bakiEntries` from its dependencies), the `setTimeout` delays, toasts, `router.push` (routes are returned values), and `onChange` setters. Actions are sequential method calls.
- AuthPage.HandleSubmit: calls `switchRole` and then `login` on the updated store, which is the intended behaviour. As written, `login` sees the role from before the switch; that behaviour is `AuthPage.StaleLogin`, described under "## Findings".
- AddCustomerModal.Modal.HandleSubmit, AddBakiModal.Modal.HandleSubmit and AddPaymentModal.Modal.HandleSubmit: the `isSubmitting` flag is not modelled. In the source it disables the submit button (`disabled={isSubmitting}`, AddBakiModal.tsx:129, AddCustomerModal.tsx:106, AddPaymentModal.tsx:139), so a second submit cannot start during the 500 ms delay. In the model a submit is one atomic call, so there is no window for that gate to close.
- EditShopModal.Modal.HandleSubmit, EditProfileModal.Modal.HandleSubmit and EditCustomerModal.Modal.HandleSubmit: do not require `!isSubmitting`. In the source the submit button is `disabled={isSubmitting}` (EditShopModal.tsx:189, EditProfileModal.tsx:180, EditCustomerModal.tsx:140), so no second request starts while one is running. The model lets a caller call `HandleSubmit` again before `FinishSubmit`; the methods then start a second request, which the button rules out.
- The edit modals' `onSuccess` callback and error toasts.
- `Date.now()` ids such as `b${Date.now()}` come from the counter `nextId` instead, so two actions in the same millisecond cannot collide.
- Time is a `now` parameter in milliseconds.
- LedgerPage.FilterByDateByDay: days are counted in UTC from the epoch. `setHours` works in the local time zone, which is not modelled.
- DashboardPage.HandleAddBaki and DashboardPage.HandleAddPayment take an integer amount, while the modals hand over `Number(amount)`, which `AddBakiModal.AmountRule` shows may be NaN. The path from modal to store therefore assumes a finite whole number; the `type="number"` input makes NaN practically unreachable.
- Formatters.FormatPhone: tests `length === 11` on the character count. JavaScript counts UTF-16 code units, and on a phone holding a character beyond U+FFFF the source's `slice` calls would cut a surrogate pair, which a string of characters cannot represent. The two counts agree exactly on text without such characters (`Text.Utf16LengthBmp`). The password rule counts UTF-16 code units, as JavaScript does (`Forms.PasswordOk`).
- Money is an integer. `parseFloat` of string amounts and fractional amounts are not modelled, and `Number(amount)` is the `toNumber` parameter (a whole number or NaN).
- `formatBDT` and `formatDate` are left out: they are locale formatting with `toLocaleString`.
- Text.Lower lower-cases ASCII letters only. Full Unicode case mapping is not modelled.
- Formatters.StatusLabel and Formatters.PaymentMethodLabel: keys inherited from `Object.prototype` (such as "constructor") would find a function in the JavaScript object. This is not modelled; such keys are returned unchanged.
- The ledger page's three tabs (all, credits, payments) pass the filtered lists to RecentActivity. They are covered by `RecentActivity.Render`, with no lemma of their own.
- The customers page's `handleAddCustomer` is the dashboard's handler, modelled by `DashboardPage.HandleAddCustomer`.
- The landing pages, the subscription page, the header, the bottom navigation and the notifications page are left out: they are markup and constant lists.

## Findings

| source | as written | input that shows it | evidently intended | confidence | as-written member | corrected member |
|---|---|---|---|---|---|---|
| src/app/auth/page.tsx:76-77 | a login calls `switchRole(userType)` and then `login(phone, password)` of the same render, and `login` (src/contexts/AppContext.tsx:162-179) reads the `currentRole` it closed over, from before the switch | the first store (role dokandar) with userType customer: the profile is the shop owner's demo profile with role dokandar, a shop is set, and the page goes to `/customer` | `login` uses the chosen role, so the profile, the shop and `currentRole` agree | not executed; high, from the `useCallback` dependency list `[currentRole]` | AuthPage.StaleLogin (shown by AuthPage.StaleLoginMismatch and AuthPage.StaleLoginFromStart) | AuthPage.HandleSubmit (proved in AuthPage.LandingMatchesStore) |
