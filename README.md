# Product catalog: office inventory and catalog pagination

This project models the two pieces of the product-catalog web application
that hold sequential logic, and proves properties about them in Dafny.

- **The office page** (`app/office/page.tsx`, module `Office` in
  `office.dfy`). This is an in-memory inventory with two lists, `available`
  and `upcoming`, whose records are keyed by a numeric id.
  - It has an add form, an edit modal and an error banner.
  - `validateProduct` checks a name and an arrival date. It is modelled as a
    pure function that returns a `Problem` verdict. `Message` maps a verdict to
    the exact text the source returns, and `''` means accepted.
  - The page state (`products`, `editingProduct`, `newProduct`, `error`) is
    the class `OfficePage`. Its methods are the handlers and the form inputs'
    `onChange` setters.
  - Each method states the whole new state as a function of the old one. It
    keeps two invariants:
    - every stored record is well-formed: the name is trimmed and at least two
      UTF-16 code units long, available records have no arrival date, and
      upcoming ones have a chosen date;
    - ids stay unique whenever the fresh id of an add is unused.
- **Catalog pagination** (`components/Dashboard.tsx`, module `Catalog` in
  `catalog.dfy`).
  - Pure functions cover the page window, the `Array.prototype.slice` it
    uses, `Math.ceil` page count, the "Showing X to Y of N" summary and the
    Previous/Next clamps.
  - Lemmas cover partition, bounds and the summary.
  - The class `CatalogPage` holds the `currentPage` field that the buttons
    update.
- **JavaScript string helpers** (module `JsString` in `text.dfy`). These model
  `String.prototype.trim`, which uses the ECMAScript whitespace set, and
  `length`, which counts UTF-16 code units. Validation depends on both.

Outside inputs become parameters:
- `now`: the instant `new Date()` reads;
- `freshId`: the value of `Date.now()` used as the new id;
- `confirmed`: the answer to `window.confirm`.

A date input is `Blank` (the empty string) or `On(instant)`, where the
instant is the one the chosen day parses to.

Editing an id that no longer exists is not an error: the list stays
unchanged and the modal still closes (`RewriteIdAbsent`).

## Model

| member | source | states |
|---|---|---|
| JsString.IsWhitespace | app/office/page.tsx:71-74 | the set `trim` removes is ECMAScript WhiteSpace and LineTerminator: it includes space, tab, line feed and carriage return, every member is one code unit, and next line, U+180E and the zero-width space are not in it |
| JsString.TrimStart | app/office/page.tsx:71 | the result is the suffix of the input after its leading whitespace, and it starts with a non-whitespace character |
| JsString.TrimEnd | app/office/page.tsx:71 | the result is the prefix of the input before its trailing whitespace, and it ends with a non-whitespace character |
| JsString.Trim | app/office/page.tsx:71-74 | `trim()` leaves no whitespace at either end, and it is empty exactly when the input is all whitespace |
| JsString.TrimIsSlice | app/office/page.tsx:71 | the trimmed name is the contiguous run of the typed name that starts after its leading whitespace |
| JsString.TrimDropsOnlyWhitespace | app/office/page.tsx:71 | `trim` removes only whitespace: every character before the trimmed run and every character after it is whitespace |
| JsString.TrimmedIsFixed | app/office/page.tsx:97 | a string without surrounding whitespace is its own trim |
| JsString.TrimIdempotent | app/office/page.tsx:139 | trimming twice is trimming once, so stored names are already trimmed |
| JsString.CodeUnits | app/office/page.tsx:74 | a character takes one UTF-16 code unit, or two exactly when it lies above U+FFFF |
| JsString.Utf16Length | app/office/page.tsx:74 | `length` counts between one and two code units per character |
| JsString.ShortIffSingleBmp | app/office/page.tsx:74-76 | a string is under two code units exactly when it is empty or one character of the Basic Multilingual Plane |
| Office.ProductsState.Get | app/office/page.tsx:103 | `prev[type]` reads the list the type names |
| Office.ProductsState.Put | app/office/page.tsx:101-104 | replacing the list named by the type leaves the other list as it was |
| Office.EmptyForm | app/office/page.tsx:51-55 | the add form opens, and is reset after an add, with no name, type available and no date; submitted as it is, it is rejected for the missing name at any time |
| Office.Message | app/office/page.tsx:70-84 | the text is empty exactly when validation accepts |
| Office.MessageInjective | app/office/page.tsx:90 | distinct verdicts have distinct texts, so the returned string determines the outcome |
| Office.ValidateProduct | app/office/page.tsx:70-84 | "name is required" exactly when the name is all whitespace, taking precedence over everything; "at least 2 characters" exactly when the trimmed name is one BMP character; the date-required message exactly when the name passes, the type is upcoming and the date is blank; "must be in the future" exactly when the name passes and an upcoming date is before now; accepted exactly when the name passes and, for upcoming, the date is chosen and not before now |
| Office.AvailableIgnoresDate | app/office/page.tsx:77-80 | for type available the date never affects the verdict |
| Office.NewRecord | app/office/page.tsx:95-99 | the added record has the fresh id and the trimmed name, and it carries the form's chosen date when the type is upcoming and no date property otherwise |
| Office.ApplyEdit | app/office/page.tsx:136-141 | an edited record keeps its id and takes the trimmed name; its date is replaced only for upcoming |
| Office.RemoveId | app/office/page.tsx:153 | the filter keeps exactly the records whose id differs |
| Office.RewriteId | app/office/page.tsx:135-143 | the map keeps length and order, and it rewrites exactly the positions whose id matches |
| Office.RemoveIdConcat | app/office/page.tsx:153 | the filter distributes over concatenation, so the remaining records keep their relative order |
| Office.RemoveIdAbsent | app/office/page.tsx:153 | deleting an id no record carries changes nothing |
| Office.RemoveIdSplit | app/office/page.tsx:153 | deleting the id of a record whose id no other record shares removes just that record |
| Office.RemoveIdAt | app/office/page.tsx:149-156 | with distinct ids, deleting the id at index i gives the list without that one element |
| Office.RewriteIdAbsent | app/office/page.tsx:133-144 | updating an id no record carries leaves the list unchanged |
| Office.RemoveIdKeepsDistinct | app/office/page.tsx:153 | filtering keeps ids distinct and adds no id |
| Office.RewriteIdKeepsIds | app/office/page.tsx:135-143 | the map leaves the set of ids and their distinctness unchanged |
| Office.TwoCodeUnitsIff | app/office/page.tsx:74-76 | the length guard is "two characters, or one astral character" |
| Office.ValidatedRecordOk | app/office/page.tsx:95-99 | a record built from accepted input is well-formed: trimmed name of two or more code units, a date exactly for upcoming |
| Office.ValidatedEditOk | app/office/page.tsx:136-141 | an accepted edit keeps a well-formed record well-formed |
| Office.AddKeepsWellFormed | app/office/page.tsx:86-107 | a successful add keeps every stored record well-formed |
| Office.RewriteKeepsWellFormed | app/office/page.tsx:118-147 | a successful update keeps every stored record well-formed |
| Office.RemoveKeepsWellFormed | app/office/page.tsx:149-156 | a delete keeps every stored record well-formed |
| Office.AddKeepsUnique | app/office/page.tsx:95-104 | appending a record with an unused id keeps ids unique, and the new id is then in its own list and not in the other |
| Office.RemoveKeepsUnique | app/office/page.tsx:149-156 | a delete keeps ids unique, and no record with the deleted id remains in that list |
| Office.RewriteKeepsUnique | app/office/page.tsx:133-144 | an update keeps ids unique |
| Office.AddStep | app/office/page.tsx:95-106 | the add's list change keeps well-formedness, and keeps uniqueness when the fresh id is unused |
| Office.UpdateStep | app/office/page.tsx:133-146 | the update's list change keeps well-formedness and uniqueness |
| Office.DeleteStep | app/office/page.tsx:150-155 | the delete's list change keeps well-formedness and uniqueness |
| Office.InitialAvailableOk | app/office/page.tsx:34-39 | the mock available records are well-formed |
| Office.InitialUpcomingOk | app/office/page.tsx:40-45 | the mock upcoming records are well-formed |
| Office.InitialIdsUnique | app/office/page.tsx:33-46 | the mock records have unique ids |
| Office.InitialProductsOk | app/office/page.tsx:33-46 | the initial state is well-formed with unique ids |
| Office.OfficePage.constructor | app/office/page.tsx:49-56 | the page starts with the mock lists, no edit open, an empty form of type available and no error |
| Office.OfficePage.HandleAddProduct | app/office/page.tsx:86-107 | on rejection: `error` is the message, and both lists and the form are unchanged. On acceptance: exactly the new record is appended at the end of the list the form names, the other list is unchanged, the form resets to `{'', available, ''}` and `error` is empty. Well-formedness is kept, and so is uniqueness when the fresh id is unused |
| Office.OfficePage.HandleEditProduct | app/office/page.tsx:109-116 | opens the modal on a copy of the record with the given type, using `''` when the record has no date, and clears the error |
| Office.OfficePage.HandleUpdateProduct | app/office/page.tsx:118-147 | with no open edit, nothing changes. On rejection: `error` is the message and the edit stays open. On acceptance: the named list is rewritten at the matching ids, the other list is unchanged, the modal closes and `error` is empty. Well-formedness and uniqueness are kept |
| Office.OfficePage.HandleDeleteProduct | app/office/page.tsx:149-156 | unconfirmed: nothing changes. Confirmed: the named list is filtered by id and the other list is unchanged. The invariants are kept |
| Office.OfficePage.CloseModal | app/office/page.tsx:165-168 | clears the edit and the error and touches nothing else |
| Office.OfficePage.SetNewName | app/office/page.tsx:204-207 | stores the typed name and clears the error |
| Office.OfficePage.SetNewKind | app/office/page.tsx:213-216 | stores the type; choosing available blanks the date |
| Office.OfficePage.SetNewArrivalDate | app/office/page.tsx:227-230 | stores the chosen date and clears the error |
| Office.OfficePage.SetEditingName | app/office/page.tsx:355-358 | changes the open edit's name, if an edit is open, and clears the error |
| Office.OfficePage.SetEditingArrivalDate | app/office/page.tsx:372-375 | changes the open edit's date, if an edit is open, and clears the error |
| Office.OfficePage.DismissError | app/office/page.tsx:184-186 | the banner's close button clears the error only |
| Catalog.IndexOfLast | components/Dashboard.tsx:82 | a page ends on a multiple of 10, at least 10 from page 1 on |
| Catalog.IndexOfFirst | components/Dashboard.tsx:83 | a page spans 10 positions and starts where the previous page ends, at 0 or later from page 1 on |
| Catalog.SliceBound | components/Dashboard.tsx:84 | a slice bound is clamped into `[0, n]`, and a negative bound counts back from the end |
| Catalog.JsSlice | components/Dashboard.tsx:84 | `slice` takes the run between in-range bounds, and is empty when the end is not past the beginning |
| Catalog.CurrentProducts | components/Dashboard.tsx:82-84 | for any `currentPage` at most `productsPerPage` (10) items are shown; from page 1 on, they are the window from `indexOfFirstProduct` to `indexOfLastProduct` clipped to the list |
| Catalog.TotalPages | components/Dashboard.tsx:85 | the page count is the ceiling of length / 10, and it is 0 exactly for the empty list |
| Catalog.SampleIsOnePage | components/Dashboard.tsx:13-85 | the five products the component renders fit on one page, all shown on page 1, and no run of clicks on the drawn buttons leaves page 1 |
| Catalog.PageInRange | components/Dashboard.tsx:82-85 | every page from 1 to `totalPages` shows a non-empty window starting at `indexOfFirstProduct` |
| Catalog.PagesFromSuffix | components/Dashboard.tsx:82-85 | the pages from p on, joined, are the list from p's first index on |
| Catalog.PagesPartition | components/Dashboard.tsx:82-85 | pages 1 to `totalPages`, joined in order, reproduce the list exactly, with each item once |
| Catalog.ShowingFrom | components/Dashboard.tsx:222 | the summary's first number is one past a multiple of 10, and at least 1 from page 1 on |
| Catalog.ShowingTo | components/Dashboard.tsx:223 | the summary's second number is the page's end or the product count, whichever is smaller |
| Catalog.SummaryMatchesPage | components/Dashboard.tsx:222-224 | on a page in range, "Showing X to Y" names exactly the 1-based positions shown, so Y − X + 1 is the window's length |
| Catalog.EmptySummary | components/Dashboard.tsx:222-224 | with no products, page 1 reads "Showing 1 to 0", which still agrees with the empty window |
| Catalog.PreviousPage | components/Dashboard.tsx:205 | Previous gives `max(page − 1, 1)`, so it never goes below 1 |
| Catalog.NextPage | components/Dashboard.tsx:212 | Next gives `min(page + 1, totalPages)`, so it never goes past the last page |
| Catalog.Press | components/Dashboard.tsx:204-243 | one click on a drawn Previous, Next or page-number button, from a page in range, lands on a page in range |
| Catalog.Navigate | components/Dashboard.tsx:204-243 | no clicks leave the page as it is, and a run of clicks that ends with a page-number button ends on that button's page |
| Catalog.NavigationStaysInRange | components/Dashboard.tsx:204-256 | with at least one page, any run of Previous, Next and page-number clicks from a page in range stays in `[1, totalPages]` |
| Catalog.ReachablePagesInRange | components/Dashboard.tsx:78-256 | starting at page 1 with a non-empty list, every reachable page is in `[1, totalPages]` |
| Catalog.EmptyListNextLeavesRange | components/Dashboard.tsx:211-213 | with an empty list `totalPages` is 0, Next stays enabled on page 1, and one click sets the page to 0 |
| Catalog.CatalogPage.constructor | components/Dashboard.tsx:78 | the component starts on page 1 |
| Catalog.CatalogPage.Shown | components/Dashboard.tsx:84 | at most 10 rows are rendered; on a page in range they are non-empty and are the positions the summary names |
| Catalog.CatalogPage.PreviousClicked | components/Dashboard.tsx:204-235 | both Previous buttons set the page to its clamp and keep it in range |
| Catalog.CatalogPage.NextClicked | components/Dashboard.tsx:211-261 | both Next buttons set the page to its clamp and keep it in range |
| Catalog.CatalogPage.PageButtonClicked | components/Dashboard.tsx:238-243 | the button for page i + 1 sets that page, which is in range |

## Left out

- `formatDate` (app/office/page.tsx:58-68): it formats dates with the
  locale-dependent `toLocaleDateString`.
- String-to-date parsing: a date input is already a `Blank` or a parsed
  instant. A non-empty string that does not parse would compare as NaN and
  pass the future check in the source. The date picker never produces one,
  so the model has no such value.
- `handleKeyPress` (app/office/page.tsx:158-163): keyboard-event plumbing.
  Enter calls the add or update handler, which is modelled. The model does
  not stop a handler from running while its button is disabled, and neither
  does Enter.
- Disabled states, the date input's `min` attribute, and all JSX rendering and
  styling. These are presentation only. For the pagination buttons, a
  disabled click would not change the page anyway.
- `handleWhatsAppOrder` (components/Dashboard.tsx:87-103): it calls
  `encodeURIComponent` and `window.open`.
- The `useQuery` loading gate (components/Dashboard.tsx:9, 105-117): backend
  subscription plumbing.
- The backend access layer and its schema (convex/inventory.ts,
  convex/schema.ts), the read-only announcement page (app/dashboard/page.tsx),
  and the header and landing page. None of these are part of this model.
- Unpaired surrogates: a Dafny `char` is a Unicode scalar value, so a
  JavaScript string holding a lone surrogate code unit cannot be written in
  the model. `trim` and `length` accept such strings and count each lone
  surrogate as one code unit; the model covers only well-formed text.
- `Math.ceil` is computed in floating point in the source. The model computes
  it on whole numbers, which agrees for every list shorter than 2^53.
- The ids come from `Date.now()` and the source does not check them for
  uniqueness. The model states uniqueness as kept only when the caller's
  fresh id is unused; it does not assume so.
