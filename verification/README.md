# MediConnect pharmacy panel — a Dafny model

This project models the logic of the MediConnect pharmacy panel, a React and
Firebase front end on which a pharmacist logs in, sees a weekday histogram
of prescriptions, lists and searches the encrypted prescriptions, marks them
completed, and opens one prescription in full.

The model is organised by the program's own structure:

| file | module | models |
|---|---|---|
| `wrappers.dfy` | `Wrappers` | `Option` and `Result` values (a JavaScript `undefined`, an exception) |
| `traversal.dfy` | `Traversal` | a loop or `map` over a list whose step can throw: the first exception wins |
| `text.dfy` | `Text` | `String.prototype.trim`, `toLowerCase` and `includes` |
| `browser.dfy` | `Browser` | `sessionStorage` / `localStorage` as a class holding a map |
| `documents.dfy` | `Documents` | the raw Firestore prescription document and the AES decryptor |
| `prescription_list.dfy` | `PrescriptionList` | `src/pages/Prescription_pharmacy.jsx`: decryption with fallback, the fetch loop, search, completion toggle |
| `dashboard.dfy` | `Dashboard` | `src/pages/Dashboard_pharmacy.jsx`: the per-weekday tally, chart data, maximum and y-axis bound |
| `summary.dfy` | `Summary` | `src/pages/psummary.jsx`: the single-prescription load, strict decryption, render order |
| `login.dfy` | `Login` | `src/pages/Login.jsx`: the trimmed credential check and the session flag |
| `topbar.dfy` | `TopBar` | `src/components/TopBar_pharmacy.jsx`: greeting by hour, dropdown toggle, logout |

The model has these abstract inputs:

- **Decryption.** CryptoJS AES decryption followed by `toString(enc.Utf8)` is a function parameter `decrypt`. It takes the stored field, which may be absent, and returns either a plaintext (possibly empty) or an exception message.
- **Firestore reads.** A collection read is a sequence of documents, or an error. A single-document read is a map from id to document, plus an optional fault.
- **The store write.** A `setDoc` write changes a `ConfirmStore` object. Its failure is an optional error message passed in.
- **Dates and clocks.** `new Date(atob(x))` followed by the weekday name is a function parameter `decodeDate`, whose result is one of: the input is not Base64 (an exception), an invalid date, or a weekday. `toLocaleDateString` is a parameter `formatDate`. The hour is passed to the top bar.
- **Storage.** A failing `sessionStorage.setItem` is a boolean input.

Each React handler is one sequential step on a class whose fields are the component's state. The pure parts are functions:

- **Normalising a document**, proved against the loop.
- **The `filter` predicate.** It is the specification of search.
- **The weekday tally** (`Tally`). It is the specification of the `forEach` loop.

Behaviours of the code the model keeps:

- **The weekday seed is kept as shipped.** The histogram starts from Monday 4 and Tuesday 7 (`ShippedSeed`). The general tally lemmas take an arbitrary seed; `ShippedTotal` and `DashboardPage.FetchCounts` use the shipped one.
- **A non-Base64 date aborts the tally.** Only a date that decodes but is invalid is skipped. A `prescriptionDate` that is not Base64 makes `atob` throw inside the `forEach`, which aborts the whole tally, so the chart keeps its previous data.
- **No status is joined back from `ConfirmPrescription`.** Every fetched record starts not completed.
- **The store holds only two values.** They are `"Completed"` and `"Not Completed"`; there is no three-state workflow.
- **A missing `doctor` or `medicines` fails the whole fetch.** On the list page, a document without either makes the whole fetch fail with the engine's `TypeError` message. No record is skipped.

## Model

| member | source | states |
|---|---|---|
| Traversal.TraverseOkIff | src/pages/Prescription_pharmacy.jsx:40-66 | a loop over a list whose step may throw completes exactly when no element's step throws |
| Traversal.TraverseOkAt | src/pages/Prescription_pharmacy.jsx:56-60 | a completed loop yields one result per element, in order, each the step applied to that element |
| Traversal.TraverseErrIsFirst | src/pages/Prescription_pharmacy.jsx:40-66 | a failed loop reports the exception of the first element whose step throws, every earlier one having succeeded |
| Traversal.TraversePrefixErr | src/pages/Prescription_pharmacy.jsx:40-66 | once a prefix has thrown, the rest of the list does not change the outcome |
| Text.Trim | src/pages/Login.jsx:14-15 | the trimmed string neither starts nor ends with ECMAScript whitespace |
| Text.TrimIsSlice | src/pages/Login.jsx:14-15 | trim keeps one contiguous slice of the input and removes only whitespace before and after it |
| Text.TrimIgnoresPadding | src/pages/Login.jsx:14-15 | whitespace added before or after a string does not change its trimmed form |
| Text.TrimOfTrimmed | src/pages/Login.jsx:14-15 | a string with non-whitespace ends is its own trimmed form |
| Text.ToLower | src/pages/Prescription_pharmacy.jsx:82-90 | lower-casing keeps the length and maps each character on its own |
| Text.ToLowerIdempotent | src/pages/Prescription_pharmacy.jsx:82-90 | lower-casing twice is lower-casing once |
| Text.Contains | src/pages/Prescription_pharmacy.jsx:86-90 | `includes`: the empty string is contained in every string |
| Text.ContainsIffOccurs | src/pages/Prescription_pharmacy.jsx:86-90 | `includes` holds exactly when the pattern occurs at some index |
| Browser.Storage.SetItem | src/pages/Login.jsx:23 | the storage maps the key to the value and every other key is unchanged |
| Browser.Storage.RemoveItem | src/components/TopBar_pharmacy.jsx:25-26 | the key is gone and every other key is unchanged |
| PrescriptionList.DecryptField | src/pages/Prescription_pharmacy.jsx:18-33 | never empty; `'Unknown'` exactly when decryption throws, yields empty text, or yields `'Unknown'` itself; otherwise the plaintext unchanged |
| PrescriptionList.MapMedicines | src/pages/Prescription_pharmacy.jsx:56-60 | the medicine list keeps its length |
| PrescriptionList.MapMedicinesAt | src/pages/Prescription_pharmacy.jsx:56-60 | the k-th decrypted medicine has the three fields of the k-th stored medicine, each decrypted on its own |
| PrescriptionList.NormalizeDocument | src/pages/Prescription_pharmacy.jsx:43-63 | a document normalises exactly when it has a doctor and a medicine list; otherwise the `TypeError` of reading `doctorName` of undefined, or then `map` of undefined |
| PrescriptionList.NormalizeDocumentFields | src/pages/Prescription_pharmacy.jsx:43-63 | `id`, `referenceNo` and `createdDate` are kept verbatim, `completed` is false, every other text field is its decrypted-with-fallback value, and medicines map element-wise |
| PrescriptionList.Normalized | src/pages/Prescription_pharmacy.jsx:40-66 | the fetch loop's specification: the traversal of the documents by `NormalizeDocument` (properties in `NormalizedOk`, `NormalizedErr`) |
| PrescriptionList.NormalizedOk | src/pages/Prescription_pharmacy.jsx:38-66 | the fetch builds records exactly when every document normalises, and then one record per document in snapshot order |
| PrescriptionList.NormalizedErr | src/pages/Prescription_pharmacy.jsx:38-73 | a failed fetch reports the exception of the first document lacking a doctor or a medicine list |
| PrescriptionList.NormalizedArePending | src/pages/Prescription_pharmacy.jsx:62 | every fetched record starts not completed |
| PrescriptionList.BuildRecords | src/pages/Prescription_pharmacy.jsx:38-66 | the `forEach`/`push` loop yields the normalised list, or the first exception |
| PrescriptionList.Matches | src/pages/Prescription_pharmacy.jsx:84-92 | the filter predicate: the lower-cased query occurs in the lower-cased patient, reference number (empty when absent), appointment number, NIC number or id (properties through `Search` and its lemmas) |
| PrescriptionList.Search | src/pages/Prescription_pharmacy.jsx:81-92 | the filtered list is no longer than the input and holds only records from it that match the query |
| PrescriptionList.SearchComplete | src/pages/Prescription_pharmacy.jsx:84-92 | no matching record is dropped |
| PrescriptionList.SearchAppend | src/pages/Prescription_pharmacy.jsx:84-92 | filtering distributes over concatenation, so the original order is kept |
| PrescriptionList.SearchKeepsAll | src/pages/Prescription_pharmacy.jsx:84-92 | a list is unchanged by the filter exactly when all its records match |
| PrescriptionList.SearchEmptyQuery | src/pages/Prescription_pharmacy.jsx:82-92 | the empty query keeps every record in order |
| PrescriptionList.SearchIdempotent | src/pages/Prescription_pharmacy.jsx:82-92 | filtering an already-filtered list with the same query changes nothing |
| PrescriptionList.SearchIgnoresQueryCase | src/pages/Prescription_pharmacy.jsx:82 | the query's letter case does not change the result |
| PrescriptionList.ActionFor | src/pages/Prescription_pharmacy.jsx:111 | the stored action is `'Completed'` exactly when the flag is set, `'Not Completed'` otherwise |
| PrescriptionList.ToggleMatching | src/pages/Prescription_pharmacy.jsx:114-120 | the updated list keeps its length |
| PrescriptionList.ToggleMatchingAt | src/pages/Prescription_pharmacy.jsx:114-120 | at each index, a record with the id has only `completed` negated, any other record is unchanged |
| PrescriptionList.ToggleMatchingTwice | src/pages/Prescription_pharmacy.jsx:114-120 | toggling the same id twice restores the list |
| PrescriptionList.SearchAfterFetchIsPending | src/pages/Prescription_pharmacy.jsx:62 | re-running the search over freshly fetched records shows every record as not completed |
| PrescriptionList.ConfirmStore.SetDoc | src/pages/Prescription_pharmacy.jsx:108-111 | the store entry for the id is overwritten and every other entry is unchanged |
| PrescriptionList.PrescriptionsPage.constructor | src/pages/Prescription_pharmacy.jsx:9-13 | empty lists and query, loading, no error |
| PrescriptionList.PrescriptionsPage.HandleSearch | src/pages/Prescription_pharmacy.jsx:81-95 | the filtered list becomes the search of all prescriptions with the current query |
| PrescriptionList.PrescriptionsPage.SetSearchQuery | src/pages/Prescription_pharmacy.jsx:97-99 | a new query re-runs the search |
| PrescriptionList.PrescriptionsPage.FetchPrescriptions | src/pages/Prescription_pharmacy.jsx:35-75 | on success the prescriptions are replaced and re-filtered; on failure the error is the prefixed message and neither list changes; loading ends either way |
| PrescriptionList.PrescriptionsPage.ToggleCompleted | src/pages/Prescription_pharmacy.jsx:106-124 | on success the store gets the action and the filtered list is toggled for the id; a failed write changes nothing; the prescriptions are never touched |
| Dashboard.WeekIsComplete | src/pages/Dashboard_pharmacy.jsx:34-42 | the week lists each of the seven days once, and day names are distinct |
| Dashboard.ShippedSeed | src/pages/Dashboard_pharmacy.jsx:34-42 | the seed has all seven weekday keys |
| Dashboard.Classify | src/pages/Dashboard_pharmacy.jsx:48-59 | a document is skipped exactly when its date is missing, empty or an invalid `Date`; it aborts the loop exactly when its date is present but not Base64; otherwise it counts on its decoded weekday |
| Dashboard.AddOne | src/pages/Dashboard_pharmacy.jsx:61-66 | one day's bucket goes up by one, the other six are unchanged, and the total goes up by one |
| Dashboard.Tally | src/pages/Dashboard_pharmacy.jsx:44-67 | a completed tally still has all seven weekday keys |
| Dashboard.TallyStep | src/pages/Dashboard_pharmacy.jsx:44-67 | one more document leaves the tally so far unchanged, adds one to its weekday, or aborts, as its contribution says |
| Dashboard.TallyPrefixAbort | src/pages/Dashboard_pharmacy.jsx:44-80 | once one document aborts the loop, the rest of the documents do not matter |
| Dashboard.TallyAbortsIff | src/pages/Dashboard_pharmacy.jsx:44-67 | the tally aborts exactly when some document's date is present but not Base64 |
| Dashboard.TallyPerDay | src/pages/Dashboard_pharmacy.jsx:44-67 | each day's bucket is its seed plus the number of documents with a valid date on that day; missing or invalid dates count nowhere |
| Dashboard.TallyTotal | src/pages/Dashboard_pharmacy.jsx:34-67 | the total is the seed's total plus the number of documents with a valid date |
| Dashboard.TallyAtLeastSeed | src/pages/Dashboard_pharmacy.jsx:34-67 | no bucket falls below its seed |
| Dashboard.ShippedTotal | src/pages/Dashboard_pharmacy.jsx:34-67 | with the shipped seed the total is 11 plus the number of documents with a valid date |
| Dashboard.AccumulateByDay | src/pages/Dashboard_pharmacy.jsx:44-67 | the `forEach` loop aborts exactly when the tally does, and otherwise leaves the tally's buckets |
| Dashboard.ChartData | src/pages/Dashboard_pharmacy.jsx:70-73 | seven chart points, Monday to Sunday, each the day's name and bucket |
| Dashboard.ChartDataFaithful | src/pages/Dashboard_pharmacy.jsx:70-73 | the chart sums to the buckets' total and shows every day's bucket |
| Dashboard.MaxCount | src/pages/Dashboard_pharmacy.jsx:92 | the maximum is at least every bar and is 0 or one of the bars |
| Dashboard.YAxisTop | src/pages/Dashboard_pharmacy.jsx:121 | the larger of 50 and the maximum plus 5 |
| Dashboard.YAxisAboveEveryBar | src/pages/Dashboard_pharmacy.jsx:121 | the y-axis top is at least 50 and strictly above every bar |
| Dashboard.DashboardPage.constructor | src/pages/Dashboard_pharmacy.jsx:18-20 | both counts are 0 and the chart is empty |
| Dashboard.DashboardPage.FetchCounts | src/pages/Dashboard_pharmacy.jsx:24-81 | the patient count is the appointments' size, the prescription count is the number of documents whatever their dates, and the chart is replaced only by a completed tally; each failed read stops the handler there |
| Summary.DecryptStrict | src/pages/psummary.jsx:33-46 | the plaintext as decrypted, even when empty, or the decryptor's exception |
| Summary.DecryptMedicineOk | src/pages/psummary.jsx:43-47 | a medicine decrypts exactly when its three fields do, and then holds their plaintexts |
| Summary.BuildRecordOkIff | src/pages/psummary.jsx:30-49 | the record is built exactly when the document has a doctor and a medicine list and none of its decryptions throws |
| Summary.BuildRecordFields | src/pages/psummary.jsx:30-49 | `id` and `nicNo` are the route id, `createdDate` is verbatim, `prescriptionDate` is the formatted creation date, every decrypted text (the doctor's name, biography and phone number, patient, diagnosis, note, appointment number) is its plaintext without substitution, and medicines map element-wise in order |
| Summary.BuildRecord | src/pages/psummary.jsx:30-49 | the strict record construction, field by field in source order, first exception winning (properties in `BuildRecordOkIff`, `BuildRecordFields`) |
| Summary.Load | src/pages/psummary.jsx:17-59 | the effect's outcome: missing id, fetch failure, not found, or the decrypted record or its exception (properties in `LoadOutcomes`, `LoadWithoutIdReadsNothing`) |
| Summary.LoadWithoutIdReadsNothing | src/pages/psummary.jsx:17-21 | with no id the outcome is the missing-id outcome whatever the store holds or the read would do |
| Summary.LoadOutcomes | src/pages/psummary.jsx:17-59 | missing id exactly when the id is absent or empty; not found exactly when the read succeeds without the id; a loaded record carries the route id and the stored creation date |
| Summary.Render | src/pages/psummary.jsx:72-135 | the render's conditional chain (properties in `RenderPriority`, `FirstLoadScreen`) |
| Summary.AfterLoad | src/pages/psummary.jsx:17-59 | a loaded record is stored and the error kept; every other outcome keeps the prescription and sets a non-empty error |
| Summary.FirstLoadScreen | src/pages/psummary.jsx:16-135 | after the first load the page shows the outcome's error or the record, never the loading text or the fallback |
| Summary.RenderPriority | src/pages/psummary.jsx:72-135 | loading wins over everything, a non-empty error over a prescription, and the fallback shows only with neither |
| Summary.SummaryPage.constructor | src/pages/psummary.jsx:12-14 | no prescription, loading, no error |
| Summary.SummaryPage.RunEffect | src/pages/psummary.jsx:16-64 | each outcome writes only its own state: the missing-id, not-found or prefixed fetch error, or the record; loading ends on every path |
| Login.PaddingDoesNotMatter | src/pages/Login.jsx:14-21 | whitespace around either input never changes whether the login succeeds |
| Login.AccountAccepted | src/pages/Login.jsx:18-21 | the pharmacy account, typed exactly, is accepted |
| Login.PaddedAccountAccepted | src/pages/Login.jsx:14-21 | the pharmacy account is accepted whatever whitespace surrounds either input |
| Login.EmailCaseVariantRefused | src/pages/Login.jsx:21 | every other spelling of the email that lower-cases to it is refused, whatever the password |
| Login.CredentialsMatch | src/pages/Login.jsx:14-21 | the success condition: both trimmed inputs equal the pharmacy account exactly (properties in `PaddingDoesNotMatter`, `AccountAccepted`, `EmailCaseVariantRefused`) |
| Login.LoginPage.constructor | src/pages/Login.jsx:7-9 | empty inputs and no error |
| Login.LoginPage.SetEmail | src/pages/Login.jsx:55 | the email field holds what was typed |
| Login.LoginPage.SetPassword | src/pages/Login.jsx:65 | the password field holds what was typed |
| Login.LoginPage.HandleLogin | src/pages/Login.jsx:12-34 | with matching trimmed credentials the session flag becomes `'true'` and the route the dashboard; otherwise the invalid-credentials error with no write and no navigation; a failing storage write gives the catch block's error |
| Login.LoginWithPaddedInput | src/pages/Login.jsx:12-26 | the account typed with any surrounding whitespace logs in, navigates to the dashboard and sets the session flag |
| TopBar.Greeting | src/components/TopBar_pharmacy.jsx:13-19 | morning exactly for hours 5 to 11, afternoon exactly for 12 to 17, night for every other hour |
| TopBar.GreetingsOfTheDay | src/components/TopBar_pharmacy.jsx:13-19 | over the hours 0 to 23 exactly the three greetings appear, with night for 0 to 4 and 18 to 23 |
| TopBar.TopBarPharmacy.SetGreeting | src/components/TopBar_pharmacy.jsx:11-20 | the mount effect sets the greeting for the hour |
| TopBar.TopBarPharmacy.ToggleDropdown | src/components/TopBar_pharmacy.jsx:48 | a click negates the dropdown flag |
| TopBar.TopBarPharmacy.HandleLogout | src/components/TopBar_pharmacy.jsx:23-30 | the login flag leaves both storages, other keys stay, and the route becomes `/login` |
| TopBar.ToggleTwice | src/components/TopBar_pharmacy.jsx:48 | two clicks restore the dropdown flag and leave the greeting alone |

## Left out

- CryptoJS AES decryption and the secret key are not modelled. They are the abstract `decrypt` parameter, whose outcome is either a plaintext or an exception.
- Firestore `getDocs`, `getDoc` and `setDoc` are not modelled as network calls. Their results and failures are inputs, and a failed write is an optional error message.
- `atob`, `new Date`, `Intl.DateTimeFormat`, `toLocaleDateString` and `getHours` are not modelled. They are the `decodeDate` and `formatDate` parameters and an hour argument.
- Text.ToLower: maps only ASCII `A`–`Z`, because Unicode case mapping is out of scope. On non-ASCII text it is weaker than `toLowerCase`.
- PrescriptionList.Matches: `referenceNo` is modelled as an optional string. A stored non-string value would make `toLowerCase` throw during the search, and the model does not capture that.
- Documents.ReadOfUndefined: the `TypeError` messages follow the V8 engine's wording. Other engines word them differently.
- React hook scheduling, batching of state updates and asynchronous interleaving are not modelled. Each handler or effect is one sequential step, and the `[searchQuery, prescriptions]` effect is folded into the methods that change those fields.
- JSX markup, CSS, the recharts bar chart and react-calendar are not modelled. Only the data handed to them (chart points, y-axis bound, screen choice) is.
- src/pages/View.jsx and src/App.js are not part of this model. They hold presentation and routing only.
- `console.log` and `console.error` calls are not modelled.
- `handleViewPrescription` is not modelled. It only navigates with the id in the route state, which the `Summary` module takes as its input.
