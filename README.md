# Blocked delivery dates: a Dafny model

This is a Dafny model of a Shopify add-on. On the add-on's dashboard a merchant
blocks delivery weekdays, single dates and date ranges. The three lists are kept
as one JSON document in the shop metafield `custom` / `locked_delivery_data`. A
checkout extension reads the same document and gives the buyer's date picker
one `disabled` list. It also writes the buyer's pick to the order metafield
`delivery` / `selected_date`.

The model has four modules:

- `BlockedData` (BlockedData.dfy) holds what both sides share:
  - the parsed document `Doc`, whose three lists may each be absent;
  - the metafield value a reader receives (`NoValue`, `Malformed`, `Parsed`);
  - the `field || []` defaulting (`OrEmpty`).
- `AdminDashboard` (AdminDashboard.dfy) models the dashboard route:
  - the loader's default document;
  - the `Dashboard` class. It holds the three working lists as `seq` fields, the loaded
    baseline `originalData` (which no handler reassigns), and the two-step delete state
    (`deleteTarget`, `deleteModalOpen`);
  - the weekday toggle, the add action, request/confirm/cancel of a delete, the
    dirty check, the save payload, and the re-render after the loader runs again;
  - the confirmed delete. It copies the list into an array and splices one element out
    in place (`SpliceOne`, a loop proved against its specification).
- `CheckoutExtension` (CheckoutExtension.dfy) models the checkout extension:
  - defaulting of absent lists;
  - the 0..6 weekday name table;
  - the `disabled` list: dates, then weekday names, then ranges;
  - the `CheckoutWidget` class holding `selectedDate` and its change handler.
- `SaveToCheckout` (SaveToCheckout.dfy) holds lemmas linking the two sides. What the
  dashboard saves is what checkout disables. Both readers default alike. The
  dashboard's weekday captions match checkout's names.

Behaviour the model keeps as the code has it, where one might expect otherwise
(a fallback for unparsable data, set comparison, deduplication, ordered ranges):
- A value that does not parse as JSON is not caught by either reader, so the model
  gives `Err(ParseError)`. It does not fall back to the empty document.
- `hasChanges` compares lists in order, through `JSON.stringify`, not as sets. A
  reordering counts as a change.
- A baseline list that is absent from the stored document never compares equal.
  Right after loading such a document, the dashboard therefore reports changes.
- Adding a date does not remove duplicates.
- Adding a range does not check that its start comes before its end.
- `handleSave` itself does not reset the baseline. The baseline is reset by the loader,
  which Remix runs again after a successful submission: the page then re-renders
  with `originalData` equal to the saved document, while the working lists keep their
  state, so the page reports no changes. The model has this as
  `Dashboard.Revalidate`, a separate step after `HandleSave`.

## Model

| member | source | states |
|---|---|---|
| `BlockedData.OrEmpty` | app/routes/app._index.tsx:58-60 | An absent list reads as `[]`. A present list is used unchanged, even an empty one. |
| `AdminDashboard.Loader` | app/routes/app._index.tsx:38-47 | No stored value gives the document with three empty lists. A stored document is returned as is. An unparsable value is the only failure. |
| `AdminDashboard.RemoveAll` | app/routes/app._index.tsx:94 | The filter drops every occurrence of the day (the multiset loses exactly that day, the length shrinks by its count). Every other value stays, each as often as before. |
| `AdminDashboard.RemoveAllAppend` | app/routes/app._index.tsx:94 | The filter distributes over concatenation, so the kept elements keep their relative order. |
| `AdminDashboard.RemoveAllAbsent` | app/routes/app._index.tsx:93-94 | Filtering out a day that does not occur returns the list unchanged. |
| `AdminDashboard.Toggled` | app/routes/app._index.tsx:91-97 | A toggle flips membership of the day and leaves membership of every other value alone. A present day is removed entirely and the list gets shorter. An absent day is appended at the end. |
| `AdminDashboard.ToggleTwiceRestores` | app/routes/app._index.tsx:92-96 | Toggling an absent weekday twice gives back exactly the original list. |
| `AdminDashboard.AreArraysEqual` | app/routes/app._index.tsx:100 | Two lists are equal only when the baseline is present and both have the same length and the same element at every position. Order matters. |
| `AdminDashboard.SpliceOne` | app/routes/app._index.tsx:135-141 | Copy-and-splice removes exactly the element at the index, giving `s[..i] + s[i+1..]` one shorter. An index past the end changes nothing. |
| `AdminDashboard.Dashboard.constructor` | app/routes/app._index.tsx:58-75 | Working lists start as the loaded lists, absent ones as `[]`. The baseline is the loaded document. No delete is pending. There are changes at once exactly when the document lacks a list. |
| `AdminDashboard.Dashboard.HasChanges` | app/routes/app._index.tsx:99-106 | There are no changes exactly when the baseline document equals the document of the three current working lists. |
| `AdminDashboard.Dashboard.ToggleDay` | app/routes/app._index.tsx:91-97 | The weekday list becomes the toggled list. Dates, ranges and delete state are unchanged. A clean dashboard becomes dirty. |
| `AdminDashboard.Dashboard.AddFromModal` | app/routes/app._index.tsx:297-309 | Exactly one element is appended at the end of the targeted list. For a date this is the formatted picker date. For a range it is the formatted start/end pair. There is no duplicate check and no order check. Nothing else changes. |
| `AdminDashboard.Dashboard.HandleDeleteClick` | app/routes/app._index.tsx:127-130 | Only records the target and opens the modal. All three lists are unchanged. |
| `AdminDashboard.Dashboard.HandleConfirmDelete` | app/routes/app._index.tsx:132-145 | A date target removes that position from the dates only. A range target does the same for the ranges only. Weekdays never change. With no target, or an index past the end, no list changes. The modal always closes and the target is kept. |
| `AdminDashboard.Dashboard.HandleCancelDelete` | app/routes/app._index.tsx:147-149 | Only closes the modal. The target and every list are unchanged. |
| `AdminDashboard.Dashboard.HandleSave` | app/routes/app._index.tsx:108-125 | The payload holds exactly the three current working lists. The handler does not touch the baseline. The payload differs from the baseline exactly when there are changes. |
| `AdminDashboard.Dashboard.Revalidate` | app/routes/app._index.tsx:52-61 | After the loader runs again, the baseline is the freshly loaded document. The working lists and the delete state are kept. There are changes exactly when that document differs from the three working lists, so reloading the saved payload leaves none. |
| `CheckoutExtension.Normalize` | extensions/delivery-date-picker/src/Checkout.tsx:33-35 | Each absent list becomes `[]`. Each present list is kept unchanged. |
| `CheckoutExtension.ReadConfig` | extensions/delivery-date-picker/src/Checkout.tsx:19-36 | No stored value gives three empty lists. A stored document gives its normalised lists. An unparsable value is the only failure. |
| `CheckoutExtension.DayName` | extensions/delivery-date-picker/src/Checkout.tsx:23-25 | For 0..6 the name comes from the table, with 0 giving "Sunday" and 6 giving "Saturday". |
| `CheckoutExtension.DayNameInjective` | extensions/delivery-date-picker/src/Checkout.tsx:23-25 | Distinct weekdays in 0..6 have distinct names. |
| `CheckoutExtension.WeekdayValue` | extensions/delivery-date-picker/src/Checkout.tsx:56 | A weekday in 0..6 becomes its name. Any other index becomes `undefined`. |
| `CheckoutExtension.Disabled` | extensions/delivery-date-picker/src/Checkout.tsx:54-58 | `disabled` has length equal to the sum of the three list lengths. It holds the dates, then the weekday values, then the ranges, each group in its list's order. |
| `CheckoutExtension.DisabledOnlyFromConfig` | extensions/delivery-date-picker/src/Checkout.tsx:54-58 | Every entry of `disabled` is one of these: a blocked date, the name of a blocked weekday, a blocked range, or `undefined` for a weekday outside 0..6. |
| `CheckoutExtension.ConfigIsDisabled` | extensions/delivery-date-picker/src/Checkout.tsx:54-58 | Every blocked date, every blocked range and the name of every blocked weekday is in `disabled`. |
| `CheckoutExtension.DisabledMembership` | extensions/delivery-date-picker/src/Checkout.tsx:54-58 | An entry is in `disabled` if and only if it comes from the configuration. |
| `CheckoutExtension.NoValueDisablesNothing` | extensions/delivery-date-picker/src/Checkout.tsx:27-31 | With no stored value, `disabled` is empty. |
| `CheckoutExtension.CheckoutWidget.constructor` | extensions/delivery-date-picker/src/Checkout.tsx:12 | No date is selected at first. |
| `CheckoutExtension.CheckoutWidget.HandleDateChange` | extensions/delivery-date-picker/src/Checkout.tsx:38-48 | The selected date becomes the picked date. The write handed out updates `delivery` / `selected_date` (type `string`) with that same date. |
| `SaveToCheckout.ReadersAgree` | extensions/delivery-date-picker/src/Checkout.tsx:27-36 | The dashboard loader and the checkout reader fail on the same values. Where they succeed, checkout's lists are the dashboard's initial working lists. |
| `SaveToCheckout.SavedPayloadReachesCheckout` | app/routes/app._index.tsx:109-113 | A saved payload read back at checkout gives the dashboard's three working lists unchanged. |
| `SaveToCheckout.WeekdayCaptionsAgree` | app/routes/app._index.tsx:81-89 | The dashboard row labelled with a weekday has value `i`. Checkout names weekday `i` with that same label. |
| `SaveToCheckout.ToggledWeekdayIsDisabled` | extensions/delivery-date-picker/src/Checkout.tsx:56 | Blocking an unblocked weekday on the dashboard and saving puts that weekday's name in checkout's `disabled` list. |

## Left out

- Authentication, the GraphQL query and mutation, `fetcher.submit`, `useAppMetafields` and `applyMetafieldsChange` are platform I/O. The save is modelled as the payload it hands out. The buyer's pick is modelled as the metafield change it hands out.
- `JSON.parse` and `JSON.stringify`: the stored value arrives already classified as absent, unparsable or a document. A document whose fields have the wrong JSON types, or that is not an object, is not modelled.
- `AdminDashboard.AreArraysEqual` compares range objects as values. `JSON.stringify` also depends on the order of an object's keys. The dashboard's own ranges always put `start` before `end`, but a stored document written elsewhere might not.
- `formatDate` (`toISOString` split at `T`) depends on time zones and the Date library. It is a function parameter of `AddFromModal`, not interpreted.
- The timing of the loader's re-run is not modelled. Remix re-runs it after a successful submission. In the model that re-run is the explicit step `Dashboard.Revalidate`, taking the document the loader read back. Nothing forces it to follow every `HandleSave`, and the success of the write is not modelled.
- The date picker's own reading of `disabled` is not modelled. This covers which calendar days a name or a range covers, and whether range ends are inclusive. It happens inside the UI library.
- Month and year navigation, the add modal's open/close and `isRange` flags, toasts and all rendering are not modelled. The same holds for the "Enable"/"Disable" button captions.
- app/routes/api.blocked-dates.ts and app/routes/api/blocked-dates.tsx are not part of this model. The first parses the request, looks up the shop id and writes the metafield. The second is an in-memory placeholder store.
