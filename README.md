# Warehouse dashboard: component logic in Dafny

This project models the sequential logic inside four Angular components of a
pharmacy/warehouse administration dashboard. The components are:

- the medicine list (`MedicinesComponent`): client-side search and drug-type
  filtering of the loaded page, a bounded page counter, and a delete
  confirmation dialog;
- the order-detail view (`OrderDetails`): the status-name tables, picking one
  order out of the warehouse's orders, two panel toggles, and the local effect
  of a status update;
- the home view (`Home`): the order list, patched in place when an order is
  reported updated, and the tab switch;
- the medicine edit form (`MedicineEditFormComponent`): the start-up guards,
  the warehouse trust gate, the discount field fallback, form validation and
  its error messages.

Each component is a class whose fields are the component's fields. Every HTTP
call is split in two. A method starts the request: it sets the fields the
component sets before the call and returns a description of the request. A
second method receives the outcome as a `Response` (`Ok(body)` or
`Failed(message)`). Values read from `localStorage`, the route and the clock
are parameters. Pure helpers (status tables, trust texts, error getters,
filter predicates) are functions.

Modules:

- `Common` (common.dfy): `Option`, `Response`, `JsNumber` (an integral number
  or `NaN`, with JavaScript truthiness), the warehouse trust record, and
  `filter`/`find`/`findIndex` over sequences with their laws.
- `Text` (text.dfy): ASCII `toLowerCase`, `includes`, and `String(n)` for
  integers, with a parse-back round trip.
- `Orders` (orders.dfy): the order records, the shapes of the orders body,
  and the two lookups both order views share.
- `MedicinesPage`, `OrderDetailsPage`, `HomePage`, `MedicineEditPage`: one per
  component.

Where the code and a plain reading of it differ, the model follows the code:

- The search lower-cases the term once. It then tests the lower-cased English
  name for the lower-cased term, and the Arabic name, as stored, for the same
  lower-cased term. A term typed with capital Latin letters therefore never
  matches those capitals in an Arabic name (medicines.ts:97-100).
- A successful delete removes the row from `medicines` only, not from
  `allMedicines`. The next `applyFilters` (clearing the search, say) shows the
  deleted row again until the page is fetched anew. The method
  `DeletedRowReturnsOnClearFilters` shows this.
- A failed trust check in the edit form leaves `isWarehouseTrusted` as it was
  (medicine-edit-form.ts:87-92). The list view's failure path does set it to
  false (medicines.ts:70-76).
- An orders body the order-detail view cannot read is an error
  ('Unexpected data structure'). The home view shows the empty list instead.
  A JSON `null` body throws on `data.result` in both views, so it takes the
  failure path; the model passes it as `Failed`.
- `updateOrderStatus` accepts any status name. There is no forward-only
  transition check in this code, and the model has none.

## Model

| member | source | states |
|---|---|---|
| Common.Filter | src/app/Components/medicines/medicines.ts:98-104 | `filter` keeps an order-preserving subsequence: an entry is in the result iff it is in the input and passes; passing entries keep their multiplicity, failing ones vanish |
| Common.FilterKeepsAll | src/app/Components/medicines/medicines.ts:95-106 | filtering with a test every entry passes returns the input unchanged |
| Common.FilterExtensional | src/app/Components/medicines/medicines.ts:98-104 | two tests that agree on every entry filter alike |
| Common.FilterFilter | src/app/Components/medicines/medicines.ts:98-105 | the search stage followed by the drug stage is one filter by their conjunction |
| Common.FindIndex | src/app/Components/home/home.ts:83 | `findIndex` returns -1 iff no entry matches, else the first matching index |
| Common.Find | src/app/Components/medicines/medicines.ts:146 | `find` returns a matching entry of the list, and `undefined` iff none matches |
| Common.FindAtFindIndex | src/app/Components/home/home.ts:83-88 | `find` returns the entry at the index `findIndex` reports, so both see the same first match |
| Text.LowerChar | src/app/Components/medicines/medicines.ts:97 | an ASCII capital maps to its small letter; every other character is kept |
| Text.ToLower | src/app/Components/medicines/medicines.ts:97-99 | lower-casing keeps the length and maps each character on its own |
| Text.Contains | src/app/Components/medicines/medicines.ts:99-100 | `includes` holds iff the term occurs at some position of the string |
| Text.OccursShift | src/app/Components/medicines/medicines.ts:99-100 | past a first position that does not start the term, the occurrences are those of the tail, shifted by one |
| Text.NatToString | src/app/Components/medicines/medicines.ts:104 | `String(n)` of a natural number is a non-empty string of digits without a leading zero |
| Text.ParseNatToString | src/app/Components/medicines/medicines.ts:104 | reading back the digits of `String(n)` gives `n` |
| Text.ParseIntToString | src/app/Components/medicines/medicines.ts:104 | reading back `String(n)` gives `n`, for negative `n` too |
| Text.IntToStringInjective | src/app/Components/medicines/medicines.ts:104 | two integers print alike iff they are equal |
| Orders.OrdersFromBody | src/app/Components/order-details/order-details.ts:122-129 | the orders array is `data.result` when that is an array, else `data` when it is a bare array, and nothing for any other shape |
| Orders.FindOrder | src/app/Components/order-details/order-details.ts:132 | the first order whose id strictly equals the view's id, or none when no order has it (always none for `NaN`) |
| OrderDetailsPage.OrderStatusText | src/app/Components/order-details/order-details.ts:159-176 | a known status name gets a label differing from the name; any other input is returned unchanged |
| OrderDetailsPage.StatusLabelsDistinct | src/app/Components/order-details/order-details.ts:159-176 | the six labels are pairwise distinct |
| OrderDetailsPage.StatusEnumValue | src/app/Components/order-details/order-details.ts:179-196 | the value is in 0..5 and names the status in the API's enumeration order; an unknown name is sent as Ordered (0) |
| OrderDetailsPage.StatusEnumValueBijective | src/app/Components/order-details/order-details.ts:179-196 | distinct known names get distinct values, and each of 0..5 is the value of one known name |
| OrderDetailsPage.WithDefaultDate | src/app/Components/order-details/order-details.ts:143-146 | an order with a missing or empty date gets the current time as its date; nothing else about it changes |
| OrderDetailsPage.OrderDetails.constructor | src/app/Components/order-details/order-details.ts:30-35 | the initial field values |
| OrderDetailsPage.OrderDetails.OnRouteParams | src/app/Components/order-details/order-details.ts:44-51 | the id is stored; a load starts iff it is non-zero and not `NaN`; otherwise only the invalid-id error is set |
| OrderDetailsPage.OrderDetails.LoadOrderDetails | src/app/Components/order-details/order-details.ts:84-86 | a load sets `loading` and clears `error` |
| OrderDetailsPage.OrderDetails.OnOrdersLoaded | src/app/Components/order-details/order-details.ts:118-156 | `loading` ends false; a failure or an unreadable shape sets `error` and keeps `order`; otherwise `order` is the first order with the id (with its date defaulted), or none with the not-found error |
| OrderDetailsPage.OrderDetails.ToggleAdditionalDetails | src/app/Components/order-details/order-details.ts:54-56 | flips `showAdditionalDetails` and writes nothing else |
| OrderDetailsPage.OrderDetails.ToggleAllDetails | src/app/Components/order-details/order-details.ts:58-60 | flips `showAllDetails` and writes nothing else |
| OrderDetailsPage.ToggleTwiceRestores | src/app/Components/order-details/order-details.ts:54-60 | toggling each panel twice restores both panel flags, and the loaded order and id are untouched |
| OrderDetailsPage.OrderDetails.UpdateOrderStatus | src/app/Components/order-details/order-details.ts:198-204 | no request without a loaded order; otherwise the request carries the order's id and the enumeration value of the new status, whatever the current status is |
| OrderDetailsPage.OrderDetails.OnStatusUpdated | src/app/Components/order-details/order-details.ts:211-222 | on success the loaded order takes the new status and nothing else about it changes; on failure or with no order nothing changes |
| HomePage.OrderStatusText | src/app/Components/home/home.ts:63-73 | the home view's table agrees with the order-detail view's on every input, and returns unknown names unchanged |
| HomePage.FetchSingleOrder | src/app/Components/home/home.ts:98-122 | from a bare array, the first order with the id (no earlier order has it), or none iff no order has it; any other body yields nothing |
| HomePage.OrdersOrEmpty | src/app/Components/home/home.ts:160-167 | the list is `data.result` when that is an array, else the bare array, else empty |
| HomePage.Home.constructor | src/app/Components/home/home.ts:44-47 | the initial field values |
| HomePage.Home.NgOnInit | src/app/Components/home/home.ts:75-79 | the first load starts only in a browser |
| HomePage.Home.FetchOrders | src/app/Components/home/home.ts:125-132 | in a browser a load sets `loading` and clears `error`; otherwise only `loading` becomes false |
| HomePage.Home.OnOrdersFetched | src/app/Components/home/home.ts:159-175 | `loading` ends false; success replaces the list by the normalised body; failure keeps the list and sets `error` to the message |
| HomePage.Home.OnOrderUpdated | src/app/Components/home/home.ts:80-94 | an order in the list is replaced at its index by the fetched order, length and other entries unchanged, and kept when none came back; an order not in the list leaves the list alone and triggers a full reload |
| HomePage.Home.SetActiveTab | src/app/Components/home/home.ts:178-183 | the tab is always set; only the orders tab starts a reload |
| Text.IntToString | src/app/Components/medicines/medicines.ts:104 | `String(n)` of an integer is non-empty, starts with `-` iff `n` is negative, and is digits otherwise |
| MedicinesPage.DrugString | src/app/Components/medicines/medicines.ts:104 | `String(med.drug)` of a number reads back as that number; `null` and a missing drug print as the words |
| MedicinesPage.MatchesTerm | src/app/Components/medicines/medicines.ts:98-101 | a match needs a non-empty name; the empty term matches every medicine with a name; a term with a Latin capital can match only in the Arabic name, since the English name is lower-cased |
| MedicinesPage.Kept | src/app/Components/medicines/medicines.ts:96-105 | with both filters empty every medicine is kept; a kept medicine under a numeric drug value has that drug number; under a search term it has a non-empty name |
| MedicinesPage.UsableWarehouseId | src/app/Components/medicines/medicines.ts:167 | a stored warehouse id is refused iff it is missing, empty or the string 'null' |
| Common.TrustedBy | src/app/Components/medicines/medicines.ts:64 | the trust flag or false: a missing flag is untrusted, a present one is used as it is (the edit form reads it the same way, medicine-edit-form.ts:75) |
| MedicinesPage.DrugFilterSelects | src/app/Components/medicines/medicines.ts:104 | a drug filter value `String(n)` keeps exactly the medicines whose drug is the number `n`; `null` and missing drugs never match |
| MedicinesPage.IntToStringNotWord | src/app/Components/medicines/medicines.ts:104 | `String(n)` is never `'null'` or `'undefined'` |
| MedicinesPage.DrugText | src/app/Components/medicines/medicines.ts:128-137 | drug 0 is a medicine, drug 1 a cosmetic (the selector's own label), every other number unspecified |
| MedicinesPage.Filtered | src/app/Components/medicines/medicines.ts:94-107 | the shown list is an order-preserving subsequence of the loaded page holding exactly the medicines that pass both filters; with an empty term and no drug it is the page itself |
| MedicinesPage.FilteredIsOneFilter | src/app/Components/medicines/medicines.ts:94-107 | the two filter stages equal one filter by the combined test |
| MedicinesPage.SubsequenceTransitive | src/app/Components/medicines/medicines.ts:98-105 | a subsequence of a subsequence is a subsequence, so each stage keeps order |
| MedicinesPage.WithoutMedicine | src/app/Components/medicines/medicines.ts:175 | after a delete the list is an order-preserving subsequence holding every entry with another id and none with this one |
| MedicinesPage.TrustStatusMessage | src/app/Components/medicines/medicines.ts:187-191 | each banner text identifies one state; "checking" shows whatever the trust flag is |
| Common.TrustStatusClass | src/app/Components/medicines/medicines.ts:193-196 | each CSS class identifies one state; "checking" wins over the trust flag (the edit form's getter, medicine-edit-form.ts:194-197, is the same) |
| MedicinesPage.NumberOr | src/app/Components/medicines/medicines.ts:85-86 | a page count or total that is missing or 0 takes its default |
| MedicinesPage.MedicinesComponent.constructor | src/app/Components/medicines/medicines.ts:15-37 | the initial field values; the page counter is in range and the dialog closed |
| MedicinesPage.MedicinesComponent.NgOnInit | src/app/Components/medicines/medicines.ts:41-45 | the warehouse id is the stored one, else "73" |
| MedicinesPage.MedicinesComponent.OnTrustChecked | src/app/Components/medicines/medicines.ts:56-76 | trusted iff the record says `isTrusted: true`; failure counts as untrusted; the check ends and the current page is requested either way |
| MedicinesPage.MedicinesComponent.OnMedicinesPage | src/app/Components/medicines/medicines.ts:81-91 | success stores the page with its defaults and re-applies the filters; failure changes nothing |
| MedicinesPage.MedicinesComponent.ApplyFilters | src/app/Components/medicines/medicines.ts:94-107 | the shown list becomes the filtered page; the loaded page is not written |
| MedicinesPage.MedicinesComponent.ClearSearch | src/app/Components/medicines/medicines.ts:117-120 | the term is cleared and the list re-filtered by the drug alone |
| MedicinesPage.MedicinesComponent.ClearFilters | src/app/Components/medicines/medicines.ts:122-126 | both filters are cleared and the shown list equals the loaded page |
| MedicinesPage.MedicinesComponent.ConfirmDeleteMedicine | src/app/Components/medicines/medicines.ts:139-149 | an untrusted warehouse changes no dialog field; otherwise the id and the first row with it are stored and the dialog opens |
| MedicinesPage.MedicinesComponent.CloseDeleteModal | src/app/Components/medicines/medicines.ts:151-156 | all four dialog fields are reset |
| MedicinesPage.CloseDeleteModalIdempotent | src/app/Components/medicines/medicines.ts:151-156 | closing twice leaves the dialog closed and the list and page alone |
| MedicinesPage.MedicinesComponent.DeleteMedicineConfirmed | src/app/Components/medicines/medicines.ts:158-163 | nothing happens when the pending id is null or 0; otherwise `deleting` is set and the delete starts, or the dialog closes without a usable stored warehouse id |
| MedicinesPage.MedicinesComponent.DeleteMedicine | src/app/Components/medicines/medicines.ts:165-173 | a missing, empty or 'null' stored warehouse id closes the dialog and sends nothing; otherwise the delete request is sent |
| MedicinesPage.MedicinesComponent.OnDeleteResponse | src/app/Components/medicines/medicines.ts:174-184 | success removes exactly the rows with the id, keeps the rest in order and closes the dialog; failure only clears `deleting` |
| MedicinesPage.DeletedRowReturnsOnClearFilters | src/app/Components/medicines/medicines.ts:175 | any row of the loaded page, once deleted, is back in the shown list after clearing the filters |
| MedicinesPage.MedicinesComponent.PrevPage | src/app/Components/medicines/medicines.ts:198-203 | the counter drops by one and that page is requested only while above 1; otherwise nothing changes; `1 <= currentPage <= totalPages` is kept |
| MedicinesPage.MedicinesComponent.NextPage | src/app/Components/medicines/medicines.ts:205-210 | the counter rises by one and that page is requested only while below the page count; otherwise nothing changes; the range is kept |
| MedicineEditPage.FormValid | src/app/Components/medicines/medicine-edit-form/medicine-edit-form.ts:30-33 | the form is valid iff the quantity is present with 0 ≤ q ≤ 999999 and the discount is present with 0 ≤ d ≤ 100 |
| MedicineEditPage.QuantityError | src/app/Components/medicines/medicine-edit-form/medicine-edit-form.ts:168-176 | empty iff untouched or in range; otherwise the required, min or max message, in that precedence |
| MedicineEditPage.DiscountError | src/app/Components/medicines/medicine-edit-form/medicine-edit-form.ts:178-186 | empty iff untouched or in range; otherwise the required, min or max message, in that precedence |
| MedicineEditPage.Validate | src/app/Components/medicines/medicine-edit-form/medicine-edit-form.ts:31-32 | no error iff the value is present and within the bounds; `required` iff empty, and then neither `min` nor `max`; with `lo <= hi`, never both `min` and `max` |
| MedicineEditPage.ErrorText | src/app/Components/medicines/medicine-edit-form/medicine-edit-form.ts:168-176 | nothing while untouched or without an error; otherwise `required` wins over `min`, and `min` over `max` |
| MedicineEditPage.AsPercent | src/app/Components/medicines/medicine-edit-form/medicine-edit-form.ts:112-114 | a value above 1 is kept and one at most 1 is scaled by 100; a non-negative value never shrinks, and a fraction in 0..1 becomes a discount the validator accepts |
| MedicineEditPage.FirstTruthy | src/app/Components/medicines/medicine-edit-form/medicine-edit-form.ts:108 | the chain of `||` gives 0 iff every candidate is missing or 0, else the first non-zero candidate |
| MedicineEditPage.DiscountOf | src/app/Components/medicines/medicine-edit-form/medicine-edit-form.ts:106-109 | `discount` is used unless it is null or undefined (0 is used); otherwise the first non-zero of the three other names, else 0 |
| MedicineEditPage.TrustStatusMessage | src/app/Components/medicines/medicine-edit-form/medicine-edit-form.ts:188-192 | each banner text identifies one state; "checking" shows whatever the trust flag is |
| MedicineEditPage.MedicineEditFormComponent.constructor | src/app/Components/medicines/medicine-edit-form/medicine-edit-form.ts:15-34 | the initial field values; both controls empty and untouched |
| MedicineEditPage.MedicineEditFormComponent.NgOnInit | src/app/Components/medicines/medicine-edit-form/medicine-edit-form.ts:36-53 | the medicine id is checked before the warehouse id; each failure sets its own error and clears `loading`; the trust check starts iff both pass |
| MedicineEditPage.MedicineEditFormComponent.OnTrustChecked | src/app/Components/medicines/medicine-edit-form/medicine-edit-form.ts:73-92 | the check ends; the medicine is fetched iff the warehouse is trusted; untrusted or failed sets its error and clears `loading` |
| MedicineEditPage.MedicineEditFormComponent.OnMedicineFetched | src/app/Components/medicines/medicine-edit-form/medicine-edit-form.ts:102-128 | success patches the quantity and the fallback discount, scaled when at most 1; failure sets the load error; `loading` ends false |
| MedicineEditPage.MedicineEditFormComponent.OnSubmit | src/app/Components/medicines/medicine-edit-form/medicine-edit-form.ts:132-147 | an untrusted warehouse changes nothing; an invalid form only marks both controls touched; only a valid form sets `submitting` and sends the values |
| MedicineEditPage.MedicineEditFormComponent.OnSubmitResponse | src/app/Components/medicines/medicine-edit-form/medicine-edit-form.ts:155-164 | a failure clears `submitting`; a success leaves it set |

## Left out

- HTTP, URLs, headers and bearer tokens: requests are returned as values and outcomes come back as `Response` parameters. An error status is a `Failed` outcome only where the code tests `res.ok` or the call rejects. `fetchMedicines` (medicines.ts:81-82) and `fetchSingleOrder` (home.ts:118) parse the body whatever the status. An error response with a JSON body therefore reaches `OnMedicinesPage` as `Ok` of that body: an object without `items` empties the list. It reaches `OnOrderUpdated` as a fetched order of `None`, through `FetchSingleOrder`, when that body is not an array. The model allows both, since the caller chooses the outcome, but no member names them as error cases.
- `localStorage` and the `JSON.parse` of `warehouseData`: the stored ids are parameters. The warehouse id used for the trust check in the edit form is not modelled.
- Promise and observable timing, and the publish/subscribe relay behind `ordersUpdated$`.
- HomePage.Home.OnOrderUpdated: models the handler as one step called with the fetched order. In the code the index is computed before an asynchronous fetch. A reload in between can leave the index stale, and a write past the end would grow the array with holes. Neither is modelled.
- `alert`, `console` output and router navigation: `goBack`, `showOrderDetails` and the navigation after a successful update are left out. They change no component field.
- `formatOrderDate`: it depends on `Date` parsing and locale formatting.
- The clock: the current ISO time is the parameter `now` of `OnOrdersLoaded`.
- Route-parameter conversion (`+params['id']`, `Number(...)`): the converted number is the parameter. It is an integer or `NaN`; fractional ids are not modelled.
- All numbers are integers: prices, quantities and discounts. MedicineEditPage.AsPercent scales a discount ≤ 1 by 100. It is exact on integers; fractional discounts such as 0.15 are not modelled.
- Text.ToLower: covers the ASCII letters only. JavaScript's `toLowerCase` also maps other scripts' capitals; Arabic has no case.
- Text.IntToString: plain decimal. JavaScript writes integers of 10^21 or more in exponent form.
- Common.TrustedBy: `isTrusted` is modelled as a boolean or missing. A truthy non-boolean value is not modelled.
- JSON records are modelled with only the fields the components read. An unusual `items` value (not an array) is not modelled.
- Angular form internals: the form is two values with touched flags. Only numeric or empty control values are modelled.
- `onSearchInput` and `onFilterChange` only call `applyFilters`; they are covered by `ApplyFilters`.
- The unused `searchTerm`, `selectedDrug`, `currentPage`, `pageSize`, `hasMorePages` fields of the home view, and its commented-out medicine code (home.ts:190-370).
- Routing, the two layout components, the registration form and the two "should create" test files.
