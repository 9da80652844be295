# RapidParcel in Dafny

RapidParcel is a single-page courier-operations app. Its screens manage merchants with
per-zone rate cards, service areas tagged with a site category (Inside Dhaka, Sub Area,
Outside Dhaka), and parcel entries. An Accounts screen settles each merchant:

- it sums the cash collected on the merchant's parcels;
- it subtracts a flat delivery fee, a COD percentage and a per-kg surcharge above 1 kg;
- each fee is looked up by the site category of the parcel's area.

All data lives in one `AppState` record. Screens replace whole lists in it by merging a partial
state.

This project models that core.

- `Types` holds the records. A rate card is three total tables indexed by site.
- `Accounts` holds the settlement engine:
  - `CalculateMerchantSummary` is the accumulator loop, proved against the fold `SummaryOf`;
  - it also builds the per-merchant rows, applies the merchant filter and sums the grand totals.
- `Dashboard` holds the stat cards and the recent-activity list.
- `App` holds the seed state, the `Store` with its merging `UpdateState`, and the print-overlay lookups.
- `DataEntry`, `MerchantEntry` and `AreaPanel` model the three editing screens:
  - each is a `Screen` class holding the form and the id being edited;
  - its methods call the `Store`;
  - the list transforms behind them (submit, delete, search) are pure functions.
- `Listing` is the shared layer of `find`, `filter`, `map`-replace and `reverse` on lists.
- `Text` supplies lower-casing, substring search and decimal digits.
- `Consistency` ties the screens together:
  - the Accounts total against the Dashboard revenue;
  - what a delete leaves behind. No delete cascades, so entries can point at a merchant or an area that no longer exists.

JavaScript numbers are `real`s. `Date.now()`, `Math.random()`, today's date, the user's answer to
`confirm`, and the address-matching service's answer are all parameters.

Where the code and `types.ts` disagree, the model follows the code.
- `Area.site` is an `Option`. `types.ts` says every area has a site. But cancelling the area form empties it, and an area saved from that form has none. Settlement then bills the area's parcels as Outside Dhaka, whatever the site select appeared to show (`Consistency.CancelledAreaBillsOutside`).
- Optional form fields are `Option`s. Absent strings are stored as `""`, and an absent home-delivery flag as `false`.

## Model

| member | source | states |
|---|---|---|
| Types.SiteTable.With | views/MerchantEntry.tsx:157 | the edited site's cell holds the new value and the other two sites keep theirs |
| Types.RateCard.WithRate | views/MerchantEntry.tsx:155-182 | exactly one (charge kind, site) cell of the rate card changes, to the new value |
| Types.DefaultCharges | views/MerchantEntry.tsx:12-18 | default delivery 60/100/150, COD 0/1/1 %, weight 10/20/20 per kg |
| Listing.Find | views/Accounts.tsx:17 | where `find` stops: None only if no element has the key; otherwise the index of the first one with it |
| Listing.Lookup | views/Accounts.tsx:17 | `find`: None iff nothing has the key; otherwise an element of the list with that key, and the first such |
| Listing.Filter | views/Accounts.tsx:38 | every kept element passes the test and comes from the list; every passing element is kept; the number of copies is stated by `FilterCounts` |
| Listing.FilterCounts | views/Accounts.tsx:38 | each value occurs in the result exactly as often as in the list when it passes the test, and not at all otherwise |
| Listing.FilterNone | views/Accounts.tsx:38 | a test nothing passes keeps nothing |
| Listing.FilterIsSubsequence | views/Accounts.tsx:38 | `filter` keeps the original order (the result is a subsequence) |
| Listing.FilterAppend | views/Accounts.tsx:38 | filtering a concatenation is concatenating the filtered parts |
| Listing.FilterKeepsAll | views/Accounts.tsx:44 | a test every element passes keeps the list unchanged |
| Listing.FilterNarrower | views/Accounts.tsx:38 | filtering by a wider test and then a narrower one is filtering by the narrower one |
| Listing.Remove | views/DataEntry.tsx:66 | delete by id, defined as `filter` with the test "the id differs"; its properties are the three lemmas below |
| Listing.RemoveKeepsOthers | views/DataEntry.tsx:66 | delete-by-id leaves only records with another id, keeps each such record as many times as it occurs, and keeps their order |
| Listing.RemoveAbsent | views/DataEntry.tsx:66 | deleting an id no record has changes nothing |
| Listing.AppendThenRemove | views/DataEntry.tsx:53 | appending a record with a fresh id and deleting that id restores the list |
| Listing.Replace | views/DataEntry.tsx:45 | `map` with the id test: same length; records with the id become the new record, the others are kept |
| Listing.RemoveAfterReplace | views/MerchantEntry.tsx:28 | replacing the records with an id and then deleting that id is deleting it outright |
| Listing.Reverse | views/Dashboard.tsx:86 | same length, element i is element n-1-i of the input |
| Text.Lower | views/DataEntry.tsx:71 | same length, each character lower-cased |
| Text.IncludesIff | views/DataEntry.tsx:71 | `includes` holds iff the term occurs at some position of the text |
| Text.IncludesEmpty | views/DataEntry.tsx:70-74 | every text includes the empty term |
| Text.Decimal | views/DataEntry.tsx:50 | a non-negative number prints as a non-empty string of digits |
| Text.ParseDecimalInvertsDecimal | views/DataEntry.tsx:50 | reading the printed digits back gives the number (ids and invoice numbers carry their value) |
| Text.DecimalLength | views/DataEntry.tsx:51 | a number in [10^(k-1), 10^k) prints with exactly k digits |
| Accounts.ResolveSite | views/Accounts.tsx:17-18 | no area with the parcel's area id gives Outside; otherwise the first such area's site, Outside if it has none |
| Accounts.CodCharge | views/Accounts.tsx:21-22 | the COD charge, defined as amount times percent over 100, unrounded |
| Accounts.WeightCharge | views/Accounts.tsx:23 | the weight surcharge, defined as (weight - 1) times the per-kg rate above 1 kg and 0 otherwise |
| Accounts.EntryFees | views/Accounts.tsx:17-23 | one parcel's three fees, defined from the rate card at the site `ResolveSite` gives |
| Accounts.WeightChargeThreshold | views/Accounts.tsx:23 | up to 1 kg there is no weight charge; from 1 kg it is (weight - 1) times the per-kg rate |
| Accounts.WeightChargeMonotone | views/Accounts.tsx:23 | with a non-negative rate, a heavier parcel never pays a smaller weight charge |
| Accounts.CodChargeAdditive | views/Accounts.tsx:22 | the COD charge is linear in the collected amount |
| Accounts.DeliveryIgnoresParcel | views/Accounts.tsx:20 | the delivery fee depends only on the site, not on weight or amount |
| Accounts.FeesNonNegative | views/Accounts.tsx:20-23 | with non-negative rates and amount, every fee of a parcel is non-negative |
| Accounts.TallyOf | views/Accounts.tsx:11-28 | the four running totals, defined as a fold over the entries in order |
| Accounts.SummaryOf | views/Accounts.tsx:11-33 | a merchant's summary, defined as the fold's totals and collected minus charges |
| Accounts.TallyStep | views/Accounts.tsx:25-28 | one more entry adds its amount and its three fees to the running totals |
| Accounts.TallyAppend | views/Accounts.tsx:25-28 | the four running totals over two runs of entries are the sums of each run's totals |
| Accounts.SummaryOfNothing | views/Accounts.tsx:11-33 | a merchant with no entries has every total and the net at zero |
| Accounts.NetAmountAdditive | views/Accounts.tsx:31 | net amounts of two runs add up, because no partial net is clamped |
| Accounts.CalculateMerchantSummary | views/Accounts.tsx:10-34 | the accumulator loop returns exactly the summary defined by the fold `SummaryOf` |
| Accounts.SingleEntrySummary | views/Accounts.tsx:16-33 | one parcel's summary is its amount, its three fees and amount minus fees |
| Accounts.InsideParcelExample | views/Accounts.tsx:17-31 | Inside Dhaka, 3 kg, 1000 collected on the default card nets 920 |
| Accounts.DanglingAreaExample | views/Accounts.tsx:18 | a parcel whose area no longer exists is billed Outside Dhaka: 500 at 0.5 kg nets 345 |
| Accounts.NegativeNetCarriedExample | views/Accounts.tsx:31 | a net of -50 is reported as is and offsets a later +200 to 150 |
| Accounts.SummaryRow | views/Accounts.tsx:37-42 | one row, defined from the merchant's own entries: the merchant, their summary and their count |
| Accounts.AllSummaries | views/Accounts.tsx:36-43 | one row per merchant, in merchant order, row i built from merchant i |
| Accounts.MerchantSummaries | views/Accounts.tsx:36-45 | the rows shown, defined as the rows filtered by the merchant select |
| Accounts.AllKeepsEveryMerchant | views/Accounts.tsx:36-45 | with the filter at "all" every merchant has its row, with its parcel count and its summary |
| Accounts.OtherFilterKeepsExactMatches | views/Accounts.tsx:44 | any other filter keeps exactly the rows of merchants with that id, each as many times as it occurs, in order |
| Accounts.RowsHoldOnlyTheirEntries | views/Accounts.tsx:38 | every entry counted in a row carries that row's merchant id |
| Accounts.DanglingEntriesIgnored | views/Accounts.tsx:37-38 | entries whose merchant does not exist reach no row: dropping them changes no row |
| Accounts.Totals | views/Accounts.tsx:47-51 | the three headline figures, defined as field-wise sums over the rows shown |
| Accounts.TotalsAppend | views/Accounts.tsx:47-51 | the grand totals of two runs of rows are the sums of each run's totals |
| Accounts.TotalsBalance | views/Accounts.tsx:47-51 | over rows that each balance, collected = payable + revenue |
| Accounts.SettlementBalances | views/Accounts.tsx:31-51 | for every merchant filter, the three headline totals satisfy collected = payable + revenue |
| Dashboard.TotalRevenue | views/Dashboard.tsx:10 | gross revenue, defined as the sum of all entry amounts |
| Dashboard.StatsOf | views/Dashboard.tsx:8-16 | the four stat cards, defined as the three list lengths and gross revenue |
| Dashboard.TotalRevenueAppend | views/Dashboard.tsx:10 | gross revenue over two runs of entries is the sum of the two |
| Dashboard.TotalRevenueNonNegative | views/Dashboard.tsx:10 | with non-negative amounts, gross revenue is non-negative |
| Dashboard.RecentActivities | views/Dashboard.tsx:86 | at most the last five entries, newest first |
| Dashboard.EmptyMessageIffNoActivity | views/Dashboard.tsx:83-86 | the empty message shows exactly when the activity list is empty |
| Dashboard.NewEntryHeadsActivity | views/Dashboard.tsx:8-10 | an appended entry heads the activity list, adds one parcel and adds its amount to gross revenue |
| App.Merge | App.tsx:39-41 | `{ ...prev, ...update }`, defined list by list; its properties are the two lemmas below |
| App.MergeReplacesOnlyPresent | App.tsx:39-41 | a merge replaces exactly the lists the update carries and keeps the others |
| App.MergeComposes | App.tsx:39-41 | two merges are one merge of the combined update, and an empty update changes nothing |
| App.InitialState | App.tsx:14-23 | no merchants, no entries, and seed areas a1-a4 with sites Inside, Inside, Sub, Outside |
| App.Store.constructor | App.tsx:28-31 | the store starts from the seed state |
| App.Store.UpdateState | App.tsx:39-41 | the new state is the old state merged with the update |
| App.PrintTarget | App.tsx:58-71 | no modal, no parcel, or a missing merchant or area shows nothing; otherwise the first parcel with the id and its own merchant and area, all taken from the state |
| DataEntry.FreshForm | views/DataEntry.tsx:15-20 | a fresh form has weight 1, amount 0 and is not marked as detected |
| DataEntry.FormOf | views/DataEntry.tsx:280 | the form loaded with an entry, every field present |
| DataEntry.CanSubmit | views/DataEntry.tsx:39 | the submit guard: address (kept required by the browser, :155), merchant, customer name, phone and area are present |
| DataEntry.ToEntry | views/DataEntry.tsx:48-53 | the record saved on create, defined field by field from the form with the new id and invoice number |
| DataEntry.EditedEntry | views/DataEntry.tsx:45 | the record saved on edit, defined as the form under the old id |
| DataEntry.EntryIdAt | views/DataEntry.tsx:50 | the new entry's id, defined as "P-" and the clock's digits |
| DataEntry.EditedEntryOfFormOf | views/DataEntry.tsx:45 | loading an entry into the form and saving it unchanged yields that entry |
| DataEntry.InvoiceSuffix | views/DataEntry.tsx:51 | the random invoice suffix lies in [100000, 999999] |
| DataEntry.InvoiceNumber | views/DataEntry.tsx:51 | an invoice number is "RP" and six digits that read back as the suffix |
| DataEntry.InvoiceNumbersCanCollide | views/DataEntry.tsx:51 | two different random draws can yield the same invoice number |
| DataEntry.SubmitEntries | views/DataEntry.tsx:37-62 | a failed guard changes nothing; an edit replaces the records with that id under the old id and keeps the length; a create appends one entry with an id from the clock and an invoice number |
| DataEntry.UnchangedEditIsIdentity | views/DataEntry.tsx:44-46 | saving an unmodified edit leaves the list unchanged |
| DataEntry.CreateThenDeleteRestores | views/DataEntry.tsx:47-66 | deleting a just-created entry restores the list |
| DataEntry.StartsDetection | views/DataEntry.tsx:27 | the blur's test before the call, defined as: an address and no area |
| DataEntry.ApplyDetection | views/DataEntry.tsx:31-32 | an answer with an id sets the area and marks it detected, on the form as it is then, and changes no other field; no id changes nothing |
| DataEntry.AfterAddressBlur | views/DataEntry.tsx:26-35 | detection changes the form only with an address, no chosen area and a detected id, and in that case sets that area and marks it detected |
| DataEntry.ChooseArea | views/DataEntry.tsx:181 | the area select sets the area and clears the detected mark, and changes no other field |
| DataEntry.ManualAreaWins | views/DataEntry.tsx:27 | an area chosen by hand before the blur is never overridden by that blur and stays marked as chosen by hand |
| DataEntry.LateAnswerOverridesManualChoice | views/DataEntry.tsx:26-33 | an area chosen by hand while the service call is pending is replaced by the detected one and marked detected, because the answer is applied without testing again |
| DataEntry.Matches | views/DataEntry.tsx:71-73 | the search test: name or invoice number contain the term ignoring case, or the phone contains it |
| DataEntry.SearchEntries | views/DataEntry.tsx:70-74 | the entries listed, defined as `Filter` by `Matches` |
| DataEntry.SearchKeepsMatchesInOrder | views/DataEntry.tsx:70-74 | search keeps exactly the entries whose name, phone or invoice number matches, each as many times as it occurs, in order |
| DataEntry.EmptySearchKeepsAll | views/DataEntry.tsx:70-74 | an empty search keeps every entry |
| DataEntry.CancelledFormLacksAmount | views/DataEntry.tsx:209 | after Cancel as written, a form with only merchant, customer, phone, address and area filled passes the guard with no amount and no weight |
| DataEntry.Screen.constructor | views/DataEntry.tsx:15-24 | the screen starts with a fresh form and nothing being edited |
| DataEntry.Screen.Submit | views/DataEntry.tsx:37-62 | the store's entries become `SubmitEntries` of the old form; on success the form is fresh and editing ends |
| DataEntry.Screen.Delete | views/DataEntry.tsx:64-68 | only after confirmation, the entries with the id are removed |
| DataEntry.Screen.Edit | views/DataEntry.tsx:280 | the form holds the entry and its id is being edited |
| DataEntry.Screen.Cancel | views/DataEntry.tsx:209 | editing ends and the form is fresh, so it always holds an amount and a weight |
| DataEntry.Screen.BlurAddress | views/DataEntry.tsx:26-35 | the form becomes `AfterAddressBlur` of the old form and the service's answer |
| DataEntry.Screen.SelectArea | views/DataEntry.tsx:181 | the area is set and the detected mark cleared |
| MerchantEntry.FormOf | views/MerchantEntry.tsx:47-49 | the form loaded with a merchant, every field present |
| MerchantEntry.CanSubmit | views/MerchantEntry.tsx:25 | the submit guard: name, page name and phone are present; the rate card is not checked |
| MerchantEntry.ToMerchant | views/MerchantEntry.tsx:28-35 | the record saved, defined field by field from the form under the given id |
| MerchantEntry.MerchantIdAt | views/MerchantEntry.tsx:34 | the new merchant's id, defined as "M-" and the clock's digits |
| MerchantEntry.ToMerchantOfFormOf | views/MerchantEntry.tsx:47-49 | loading a merchant and saving it unchanged yields that merchant |
| MerchantEntry.SubmitMerchants | views/MerchantEntry.tsx:23-45 | a failed guard changes nothing; an edit replaces the records with that id under the old id; a create appends one merchant |
| MerchantEntry.SetRate | views/MerchantEntry.tsx:155-182 | a rate input changes exactly its cell of the form's rate card and nothing else in the form |
| MerchantEntry.SetRateTwice | views/MerchantEntry.tsx:155-182 | the later of two inputs to one cell wins |
| MerchantEntry.Matches | views/MerchantEntry.tsx:60-61 | the search test: the name contains the term ignoring case, or the phone contains it |
| MerchantEntry.SearchMerchants | views/MerchantEntry.tsx:59-62 | the merchants listed, defined as `Filter` by `Matches` |
| MerchantEntry.SearchMerchantsKeepsMatches | views/MerchantEntry.tsx:59-62 | search keeps exactly the merchants whose name or phone matches, each as many times as it occurs, in order; an empty term keeps all |
| MerchantEntry.CancelledFormLacksRateCard | views/MerchantEntry.tsx:196 | after Cancel as written, a form passes the guard with no rate card |
| MerchantEntry.Screen.constructor | views/MerchantEntry.tsx:12-21 | the screen starts with the default rate card and nothing being edited |
| MerchantEntry.Screen.Submit | views/MerchantEntry.tsx:23-45 | the store's merchants become `SubmitMerchants` of the old form; on success the form is back to the default |
| MerchantEntry.Screen.Edit | views/MerchantEntry.tsx:47-51 | the form holds the merchant and its id is being edited |
| MerchantEntry.Screen.Delete | views/MerchantEntry.tsx:53-57 | only after confirmation, the merchants with the id are removed; entries are untouched |
| MerchantEntry.Screen.EditRate | views/MerchantEntry.tsx:155-182 | the form becomes `SetRate` of the old form |
| MerchantEntry.Screen.Cancel | views/MerchantEntry.tsx:196 | editing ends and the form is back to the default, so it always holds a rate card |
| AreaPanel.InitialForm | views/AreaPanel.tsx:12-15 | the form starts at Inside with home delivery and no names |
| AreaPanel.FormOf | views/AreaPanel.tsx:138 | the form loaded with an area, every field present |
| AreaPanel.CanSubmit | views/AreaPanel.tsx:22 | the submit guard: district and area name are present; the site is not checked |
| AreaPanel.ToArea | views/AreaPanel.tsx:26-28 | the record saved, defined field by field from the form under the given id |
| AreaPanel.AreaIdAt | views/AreaPanel.tsx:28 | the new area's id, defined as "A-" and the clock's digits |
| AreaPanel.ToAreaOfFormOf | views/AreaPanel.tsx:138 | loading an area and saving it unchanged yields that area |
| AreaPanel.SubmitAreas | views/AreaPanel.tsx:20-32 | a failed guard changes nothing; an edit replaces the records with that id under the old id; a create appends one area |
| AreaPanel.Matches | views/AreaPanel.tsx:35-36 | the search test: area name or district contain the term, ignoring case |
| AreaPanel.SearchAreas | views/AreaPanel.tsx:34-37 | the areas listed, defined as `Filter` by `Matches` |
| AreaPanel.SearchAreasKeepsMatches | views/AreaPanel.tsx:34-37 | search keeps exactly the areas whose name or district matches, each as many times as it occurs, in order; an empty term keeps all |
| AreaPanel.Screen.constructor | views/AreaPanel.tsx:12-17 | the screen starts with the initial form and nothing being edited |
| AreaPanel.Screen.Submit | views/AreaPanel.tsx:20-32 | the store's areas become `SubmitAreas` of the old form; on success the form is back to the initial one |
| AreaPanel.Screen.Edit | views/AreaPanel.tsx:138 | the form holds the area and its id is being edited |
| AreaPanel.Screen.Delete | views/AreaPanel.tsx:139 | the areas with the id are removed, without confirmation |
| AreaPanel.Screen.SelectSite | views/AreaPanel.tsx:54-56 | the form's site becomes the chosen one |
| AreaPanel.Screen.Cancel | views/AreaPanel.tsx:79 | editing ends and the form is emptied, site included |
| Consistency.CollectedIsRevenue | views/Accounts.tsx:25 | the collected total is the same sum the Dashboard calls gross revenue |
| Consistency.RevenueSplits | views/Dashboard.tsx:10 | the revenue of entries passing either of two disjoint tests is the sum of the two parts |
| Consistency.RowCollectsRevenue | views/Accounts.tsx:25-41 | a merchant's row collects exactly the revenue of that merchant's entries |
| Consistency.RowsAreOfMerchants | views/Accounts.tsx:37-44 | every row shown belongs to a merchant of the state |
| Consistency.RowsCollectPerMerchant | views/Accounts.tsx:36-48 | the collected total of the first k rows is the revenue of the first k merchants' entries |
| Consistency.PerMerchantIsKnownRevenue | views/Accounts.tsx:38 | with distinct ids, per-merchant revenues add up to the revenue of entries with a known merchant |
| Consistency.LastMerchantSplits | views/Accounts.tsx:38 | with distinct ids, an entry belongs to the last merchant or to the others, never both |
| Consistency.AccountsCollectedIsKnownRevenue | views/Accounts.tsx:47-48 | with the filter at "all", Total Collected is the revenue of exactly the entries whose merchant exists |
| Consistency.GrossRevenueSplits | views/Dashboard.tsx:10 | Dashboard gross revenue = Accounts Total Collected + the amounts of entries with no merchant |
| Consistency.DeletedMerchantLeavesEntries | views/MerchantEntry.tsx:55 | deleting a merchant keeps the parcel count and gross revenue, removes its row, and leaves its entries without a merchant |
| Consistency.RemovedMerchantOrphans | views/MerchantEntry.tsx:55 | after a merchant id is deleted, an entry carrying it has no merchant |
| Consistency.DeletedMerchantBlocksPrint | App.tsx:59-71 | after its merchant is deleted, a parcel can no longer be printed |
| Consistency.DeletedAreaBillsOutside | views/AreaPanel.tsx:139 | after an area is deleted, its id resolves to Outside Dhaka |
| Consistency.CancelledAreaBillsOutside | views/AreaPanel.tsx:79 | an area saved from a cancelled form has no site and is billed Outside Dhaka |
| Consistency.SeedAreaResolves | App.tsx:16-21 | each seed area bills at its own site (Inside, Inside, Sub, Outside for a1-a4), since no two seed areas share an id |
| Consistency.UnknownSeedAreaIsOutside | App.tsx:16-21 | on the seed areas, any id other than a1-a4 bills Outside |

## Left out

- Persistence: loading from and saving to `localStorage` (App.tsx:28-37) is I/O. The store starts from the seed state.
- The address-matching service (services/geminiService.ts) is a remote language-model call. It is the `detected` parameter of `BlurAddress`: any answer, or none.
- DataEntry.ManualAreaWins: holds only when the blur runs as one step, which is what `Screen.BlurAddress` does. In views/DataEntry.tsx:26-33 the test at :27 runs before the `await`, and the answer at :32 is written into the form as it is by then without testing again. So an area chosen by hand while the call is pending is overwritten and marked detected. `LateAnswerOverridesManualChoice` states that outcome on `ApplyDetection`. The `Screen` does not interleave other inputs with a pending call.
- `alert` on a failed entry submit is a dialog. `Submit` returns `accepted = false` and changes nothing.
- `confirm` is the `confirmed` parameter of the Delete methods.
- Text inputs that set one form field (name, phone, address, post code, …) are plain field updates and have no separate methods. The modelled inputs are the site select, the area select and the rate inputs.
- `Number(e.target.value)` in the rate inputs is not modelled: a rate input takes a real number, and non-numeric text (NaN) is not represented.
- JavaScript numbers are IEEE doubles. The model computes in exact reals, so rounding in the fee sums is not captured.
- Text.Lower: lower-cases ASCII letters only; `toLowerCase` also folds non-ASCII letters.
- DataEntry.SubmitEntries: an absent amount or weight is stored as 0, where the source stores `undefined` and settlement then yields NaN. Only the as-written Cancel can produce such a form; the corrected `Screen` keeps both fields present (see Findings).
- MerchantEntry.SubmitMerchants: requires a rate card in the form. Without one the source stores a merchant with no `charges`, and the merchant table then throws as it renders that merchant's rates (views/MerchantEntry.tsx:253). That path is shown by `CancelledFormLacksRateCard` and closed by the corrected `Screen.Cancel`.
- MerchantEntry.SetRate: requires a rate card in the form. In the source a rate input on a form with no rate card throws on `formData.charges!` (views/MerchantEntry.tsx:157, 169, 181). Only the as-written Cancel can empty the rate card; the corrected `Screen.Cancel` keeps one, so `Screen.EditRate` always meets the requirement.
- MerchantEntry.CanSubmit: the page-link input has `type="url"` (views/MerchantEntry.tsx:132). The browser refuses to submit when that field is not empty and is not an absolute URL, for example "facebook.com/shop", so `handleSubmit` never runs and the merchant list does not change. The model does not represent URL syntax and accepts any page link.
- MerchantEntry.Screen.Submit: `accepted` follows `CanSubmit`, so a form the browser refuses for its page link counts as accepted and its merchant is saved. This is the gap described under `MerchantEntry.CanSubmit`.
- HTML `required` on the entry form's date input (views/DataEntry.tsx:106): that input shows `formData.date` unbound after the as-written Cancel, so what the browser checks is not the form state. `DataEntry.CanSubmit` does not test the date, and a form with no date is saved with an empty one. The other `required` controls of the three forms show the form's own field, and each of those fields is tested by the guards (the entry address by `DataEntry.CanSubmit`). The amount input always shows a number, so its `required` blocks nothing.
- Types.Area: `site` is optional, which is weaker than the declared type in types.ts:24. The area form's Cancel (views/AreaPanel.tsx:79) lets an area be saved with no site, and settlement handles that case (views/Accounts.tsx:18).
- Presentation: index.tsx, vite.config.ts, the Intro, Layout, InvoicePreview and BarcodeQR components, the dummy chart data, number formatting, the newest-first display order of the entry list, and the print overlay's layout and roll-size buttons. `PrintConfig` carries those fields, but `PrintTarget` does not depend on them.
- The Accounts search box (views/Accounts.tsx:8) is not connected to any computation.
- Consistency lemmas over the merchant rows assume distinct merchant ids (`DistinctIds`). Ids come from `Date.now()`, and two saves in one millisecond are not ruled out by the source.

## Findings

| source | as written | input that shows it | evidently intended | confidence | as-written member | corrected member |
|---|---|---|---|---|---|---|
| views/MerchantEntry.tsx:196 | Cancel sets the form to `{}`, dropping the default rate card, and submit does not check for one | edit a merchant, press Cancel, fill in name, page name and phone, save: the new merchant has no `charges`. Rendering its row of the merchant table reads `m.charges.delivery` and throws (views/MerchantEntry.tsx:253), and the app's error boundary replaces the page. Typing into a rate input before saving throws as well (:157). Once that merchant has an entry, the Accounts screen throws too (views/Accounts.tsx:20) | Cancel returns to the default form with the default rate card, as a successful submit does | high, not executed | MerchantEntry.CancelledFormLacksRateCard | MerchantEntry.Screen.Cancel |
| views/DataEntry.tsx:209 | Cancel sets the form to `{}`, dropping weight and amount, and submit does not check them | edit an entry, press Cancel, fill in merchant, customer, phone, address and area, save: the entry has no amount or weight, and its merchant's Accounts totals become NaN | Cancel returns to a fresh form (weight 1, amount 0), as a successful submit does | high, not executed | DataEntry.CancelledFormLacksAmount | DataEntry.Screen.Cancel |
