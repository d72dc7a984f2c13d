# Blood-bank app rules in Dafny

This project models the small deterministic rules of a blood-bank
application and proves properties about them. The application has a Python
command-line finder, an Express mock backend, a React client mock service,
an ABDM facility-finder script and several React pages. Each source file in
the model is one Dafny module:

- `BloodStockFinder` (`blood_stock_finder.py`) covers three things:
  - the blood-group code table and its validator;
  - the tolerant parser that finds the records in a decoded eRaktKosh response and turns them into numbered rows;
  - the status check of the search.
- `EraktkoshRoutes` (`eraktkosh.routes.js`) covers the mock `/nearby-blood-stock` route and the mock `/nearby-facilities` route:
  - the route normalises the group with white space → `+` and upper-casing;
  - an unknown group falls back to O+;
  - stock is jittered and clamped at 1;
  - the facilities route returns the whole table.
- `EraktkoshService` (`eRaktKoshService.js`) is the client mock service:
  - blood-group lookup is exact;
  - distances and stock are jittered;
  - facilities are filtered by radius.
- `AbdmHospitalFinder` (`abdmHospitalFinder.js`) covers:
  - the facility-type filter;
  - the top-five selection;
  - the fixed-width card cells.
- `BloodStockMap` (`BloodStockMapPage.jsx`) covers the inventory total, the stock levels and their colours.
- `HospitalsPage` (`HospitalsPage.jsx`) covers:
  - the two city lookups;
  - the search filter;
  - the manager-only handlers and the forms they fill in.
- `HospitalRequestsPage` (`HospitalRequestsPage.jsx`) covers:
  - status and urgency styling;
  - the cancel rule;
  - status tabs and query parameters;
  - form reset after a submit.
- `Header` (`Header.jsx`) covers the avatar initials and the role-badge style.

Three shared modules support them:

- `Wrappers` holds `Option` and `Result`. `None` models a missing value and `Failure` models a raised exception.
- `Text` holds ASCII case mapping, the exact whitespace classes of Python's `isspace` and JavaScript's `\s`, substring search, `substring`/`padEnd`, decimal rendering and JavaScript `parseInt`.
- `Sequences` holds `Array.prototype.filter`, with membership, order (subsequence), concatenation and idempotence lemmas.

`Math.random()` is modelled as a stream of draws in [0, 1), passed in as a parameter. The draws are consumed in the order the JavaScript evaluates them. JSON numbers are modelled as reals.

The finder's record-selection loop (`for … break` over candidate keys) and its numbering loop are imperative in the source. They are modelled as methods with loop invariants. Each method is proved equal to a specification function, and the functions' properties are proved as lemmas. Everything else in the source is expression code and is modelled as functions.

## Model

| member | source | states |
|---|---|---|
| BloodStockFinder.BloodGroupCodesAreDistinct | blood-stock-finder/blood_stock_finder.py:11-20 | The code table has exactly the eight groups. Its codes are exactly 11..18, and no two groups share a code. |
| BloodStockFinder.GetBloodGroupCode | blood-stock-finder/blood_stock_finder.py:31-36 | The lookup succeeds iff the upper-cased, stripped input is one of the eight groups. On success it returns that group's code, which lies in 11..18. Otherwise the `ValueError` is modelled as `Failure`. |
| BloodStockFinder.CodeIgnoresCaseAndPadding | blood-stock-finder/blood_stock_finder.py:33-36 | Any group written in lower case, with any Python white space around it, yields that group's code. |
| BloodStockFinder.ExampleLowerCaseOMinus | blood-stock-finder/blood_stock_finder.py:33-36 | `' o- '` yields 16. |
| BloodStockFinder.StripStartOfPadded | blood-stock-finder/blood_stock_finder.py:33 | `strip` removes exactly the leading white space in front of a word. |
| BloodStockFinder.StripEndOfPadded | blood-stock-finder/blood_stock_finder.py:33 | `strip` removes exactly the trailing white space after a word. |
| BloodStockFinder.RecordsOfDictWithList | blood-stock-finder/blood_stock_finder.py:87-95 | A dict response uses the list under the first of `data`/`result`/`bloodBanks`/`records`/`nearbyBB` that holds a list. When that list is empty, the single-record fallback applies. |
| BloodStockFinder.RecordsOfDictWithoutList | blood-stock-finder/blood_stock_finder.py:93-95 | A dict with no such list becomes exactly one record iff it has no `status` key and has `hospitalName`, `bbName` or `name`. Otherwise it yields no records. |
| BloodStockFinder.FirstListAt | blood-stock-finder/blood_stock_finder.py:89-92 | The key loop stops at the first key whose value is a list and takes that list. |
| BloodStockFinder.FirstListNone | blood-stock-finder/blood_stock_finder.py:89-92 | With no list under any key, the loop finds nothing. |
| BloodStockFinder.SelectRecords | blood-stock-finder/blood_stock_finder.py:83-95 | The loop with `break` computes exactly `Records`. A list response is used as-is, and anything other than a list or a dict gives no records. |
| BloodStockFinder.Pick | blood-stock-finder/blood_stock_finder.py:111-116 | An `or`-chain of `get`s returns the first truthy value. When no value is truthy it returns the last `get` with its default. |
| BloodStockFinder.ShortenKeepsPrefix | blood-stock-finder/blood_stock_finder.py:124-126 | A string longer than the limit becomes its first `limit` characters plus `'...'`. Shorter strings and non-strings are unchanged. |
| BloodStockFinder.ParsedEntriesShape | blood-stock-finder/blood_stock_finder.py:108-130 | Parsing succeeds iff every record is a dict. It then yields one row per record, in order, with `sno` = 1..n. |
| BloodStockFinder.BuildEntries | blood-stock-finder/blood_stock_finder.py:108-130 | The numbering loop computes exactly `ParseEntries`. It gives one row per record, numbered from 1, or the `AttributeError` on a non-dict record. |
| BloodStockFinder.ParseAndDisplayResults | blood-stock-finder/blood_stock_finder.py:83-130 | The method computes exactly `Parse`: no records gives `[]`, otherwise the numbered rows. |
| BloodStockFinder.SearchBloodStock | blood-stock-finder/blood_stock_finder.py:219-244 | An invalid group, a failed request, or a dict whose status marks an error gives `[]`. Otherwise the search returns the parsed rows, or `[]` when parsing raises. |
| BloodStockFinder.ErrorStatusYieldsNothing | blood-stock-finder/blood_stock_finder.py:226-232 | A status that lower-cases to `error`, `failed`, `failure` or `0` yields no rows. |
| BloodStockFinder.SearchReturnsAllRecords | blood-stock-finder/blood_stock_finder.py:226-234 | With a valid group, no error status and dict records, the search returns one row per located record, in order, each built from its record and numbered from 1. |
| BloodStockFinder.NonDictRecordYieldsNothing | blood-stock-finder/blood_stock_finder.py:234-244 | A located record that is not a dict makes the search return `[]`. |
| BloodStockFinder.SearchRowsNumbered | blood-stock-finder/blood_stock_finder.py:109-123 | Whatever the response, the rows the search returns are numbered 1..n in order. |
| EraktkoshRoutes.TableStocksParse | blood-bank-backend/routes/eraktkosh.routes.js:5-39 | Every stock label in the mock table holds a count that `parseInt` reads. |
| EraktkoshRoutes.OGroupStocksParse | blood-bank-backend/routes/eraktkosh.routes.js:6-28 | The O+ and O- stock labels parse. |
| EraktkoshRoutes.AGroupStocksParse | blood-bank-backend/routes/eraktkosh.routes.js:12-32 | The A+ and A- stock labels parse. |
| EraktkoshRoutes.BGroupStocksParse | blood-bank-backend/routes/eraktkosh.routes.js:17-35 | The B+ and B- stock labels parse. |
| EraktkoshRoutes.ABGroupStocksParse | blood-bank-backend/routes/eraktkosh.routes.js:21-39 | The AB+ and AB- stock labels parse. |
| EraktkoshRoutes.CountsParse | blood-bank-backend/routes/eraktkosh.routes.js:70 | `parseInt` reads back the count of each `"<n> Units"` label. |
| EraktkoshRoutes.CollapseSpaces | blood-bank-backend/routes/eraktkosh.routes.js:63 | `replace(/\s+/g, '+')` leaves no white space and never lengthens the string. The run rule itself is stated by CollapseRun. |
| EraktkoshRoutes.CollapseKeepsSpaceFree | blood-bank-backend/routes/eraktkosh.routes.js:63 | A string without white space is unchanged by the replacement. |
| EraktkoshRoutes.DropJsSpaceOverRun | blood-bank-backend/routes/eraktkosh.routes.js:63 | Skipping white space passes a whole run and stops at the first non-space character after it. |
| EraktkoshRoutes.DropJsSpaceAppend | blood-bank-backend/routes/eraktkosh.routes.js:63 | On a string ending in a non-space character, skipping white space leaves whatever follows untouched. |
| EraktkoshRoutes.CollapseAppend | blood-bank-backend/routes/eraktkosh.routes.js:63 | The replacement works on each side of a split that follows a non-space character independently. |
| EraktkoshRoutes.CollapseLeadingRun | blood-bank-backend/routes/eraktkosh.routes.js:63 | A leading white-space run becomes one `'+'` in front of the replaced rest. |
| EraktkoshRoutes.CollapseRun | blood-bank-backend/routes/eraktkosh.routes.js:63 | A maximal white-space run between `a` and `b` becomes exactly one `'+'`, and `a` and `b` are replaced on their own. |
| EraktkoshRoutes.NormalizeBg | blood-bank-backend/routes/eraktkosh.routes.js:63 | A missing or empty `bg` gives `'O+'`. A non-empty one gives its upper-cased replacement. The result never contains white space. |
| EraktkoshRoutes.NormalizeRun | blood-bank-backend/routes/eraktkosh.routes.js:63 | `a`, a white-space run, then `b` normalises to the upper-cased replacements of `a` and `b` joined by one `'+'`. |
| EraktkoshRoutes.NormalizeRestoresPlus | blood-bank-backend/routes/eraktkosh.routes.js:63 | `'ab '` normalises to `'AB+'`, and `'o  '` (a run of spaces) to `'O+'`. |
| EraktkoshRoutes.NormalizeFixesTableKeys | blood-bank-backend/routes/eraktkosh.routes.js:63-65 | Every table key is its own normal form. |
| EraktkoshRoutes.BanksFor | blood-bank-backend/routes/eraktkosh.routes.js:65 | A normalised group that is a table key gets that key's banks. Any other gets the O+ banks, so the list is never empty. |
| EraktkoshRoutes.StockOffset | blood-bank-backend/routes/eraktkosh.routes.js:70 | `Math.floor(Math.random() * 10 - 5)` is an integer in [-5, 4]. |
| EraktkoshRoutes.JitterStock | blood-bank-backend/routes/eraktkosh.routes.js:70 | An unparsable stock gives `'NaN Units'`. Otherwise the new label is `"<k> Units"` with 1 ≤ k, base − 5 ≤ k and k ≤ max(1, base + 4). |
| EraktkoshRoutes.NearbyBloodStock | blood-bank-backend/routes/eraktkosh.routes.js:56-78 | The response is successful with source `'Mock Data'` and `count` = `data.length` = the number of banks for the group. It keeps table order, and every field but `stock` is unchanged. |
| EraktkoshRoutes.UnknownGroupServesOPlus | blood-bank-backend/routes/eraktkosh.routes.js:65-71 | An unknown group is served the four O+ banks in order, each unchanged but for its jittered stock. |
| EraktkoshRoutes.ReturnedStockBounds | blood-bank-backend/routes/eraktkosh.routes.js:68-71 | Every returned stock reads back as a count between 1 and the table count + 4, and at least the table count − 5. |
| EraktkoshRoutes.NearbyFacilities | blood-bank-backend/routes/eraktkosh.routes.js:95-106 | `lat`, `long` and `radius` are ignored. The response is all eight facilities, with count 8. |
| EraktkoshService.TableStocksParse | blood-bank-app/src/services/eRaktKoshService.js:10-44 | Every stock label in the client's table holds a count that `parseInt` reads. |
| EraktkoshService.OGroupStocksParse | blood-bank-app/src/services/eRaktKoshService.js:11-33 | The O+ and O- stock labels parse. |
| EraktkoshService.AGroupStocksParse | blood-bank-app/src/services/eRaktKoshService.js:17-37 | The A+ and A- stock labels parse. |
| EraktkoshService.BGroupStocksParse | blood-bank-app/src/services/eRaktKoshService.js:22-40 | The B+ and B- stock labels parse. |
| EraktkoshService.ABGroupStocksParse | blood-bank-app/src/services/eRaktKoshService.js:26-44 | The AB+ and AB- stock labels parse. |
| EraktkoshService.CountsParse | blood-bank-app/src/services/eRaktKoshService.js:75 | `parseInt` reads back the count of each `"<n> Units"` label. |
| EraktkoshService.JitterDistance | blood-bank-app/src/services/eRaktKoshService.js:74 | `Math.max(0.5, d + noise)` is at least 0.5 and at least d + noise. It equals one of the two. |
| EraktkoshService.BankNoise | blood-bank-app/src/services/eRaktKoshService.js:74 | The bank noise lies in [-1, 1). |
| EraktkoshService.FacilityNoise | blood-bank-app/src/services/eRaktKoshService.js:94 | The facility noise lies in [-0.5, 0.5). |
| EraktkoshService.BanksOf | blood-bank-app/src/services/eRaktKoshService.js:69 | An unknown group gives `[]`, and a known group gives its non-empty list. |
| EraktkoshService.JitterBanks | blood-bank-app/src/services/eRaktKoshService.js:71-76 | The mapped list has the input's length and order. Only distance and stock change: bank i uses draws 2i and 2i+1. |
| EraktkoshService.FetchNearbyBloodStock | blood-bank-app/src/services/eRaktKoshService.js:65-77 | The result has the same length and order as the group's list. Fields other than distance and stock are unchanged. The distance is jittered from draw 2i, and the stock from draw 2i+1. |
| EraktkoshService.UnknownGroupGivesNothing | blood-bank-app/src/services/eRaktKoshService.js:69 | Unlike the backend, an unknown group yields an empty list. |
| EraktkoshService.LookupIsExact | blood-bank-app/src/services/eRaktKoshService.js:69 | `'o+'` and `' O+'` find nothing, while `'O+'` finds four banks. |
| EraktkoshService.FetchedStockBounds | blood-bank-app/src/services/eRaktKoshService.js:72-76 | Each returned stock is `"<k> Units"` with 1 ≤ k ≤ base + 4 and k ≥ base − 5. Its distance is ≥ 0.5. |
| EraktkoshService.InRadius | blood-bank-app/src/services/eRaktKoshService.js:91 | A facility is kept iff its table distance is ≤ the radius, with a default of 10. The kept list is a subsequence of the table. |
| EraktkoshService.FetchNearbyFacilities | blood-bank-app/src/services/eRaktKoshService.js:86-96 | The kept facilities stay in order. Every field but distance is unchanged, and every distance is ≥ 0.5. |
| EraktkoshService.DefaultRadiusKeepsAll | blood-bank-app/src/services/eRaktKoshService.js:86-91 | With the default radius, all eight facilities are returned. |
| AbdmHospitalFinder.FilterFacilities | blood-bank-backend/scripts/abdmHospitalFinder.js:149-155 | A facility is kept iff its lower-cased type contains `hospital`, `blood bank` or `clinic`. A kept facility appears as often as in the input, and the result is an order-preserving subsequence. |
| AbdmHospitalFinder.FilterFacilitiesIdempotent | blood-bank-backend/scripts/abdmHospitalFinder.js:151-155 | Filtering twice equals filtering once. |
| AbdmHospitalFinder.UpperCaseTypeAllowed | blood-bank-backend/scripts/abdmHospitalFinder.js:149-154 | `HOSPITAL` passes the filter: the test ignores case. |
| AbdmHospitalFinder.ContainedTypeAllowed | blood-bank-backend/scripts/abdmHospitalFinder.js:149-154 | `Multi-Specialty Hospital` passes the filter: the allowed word may occur anywhere in the type. |
| AbdmHospitalFinder.PharmacyNotAllowed | blood-bank-backend/scripts/abdmHospitalFinder.js:149-154 | `Pharmacy` contains none of the allowed words and is dropped. |
| AbdmHospitalFinder.TitleCell | blood-bank-backend/scripts/abdmHospitalFinder.js:179 | The title cell is `"<i+1>. <name>"` cut to 56 characters and padded with spaces to exactly 57. |
| AbdmHospitalFinder.AddressCell | blood-bank-backend/scripts/abdmHospitalFinder.js:182 | The address cell is always exactly 44 characters: a cut address, or the address padded with spaces. |
| AbdmHospitalFinder.Top5 | blood-bank-backend/scripts/abdmHospitalFinder.js:175 | `slice(0, 5)` gives the first min(5, n) facilities. |
| AbdmHospitalFinder.DisplayResults | blood-bank-backend/scripts/abdmHospitalFinder.js:160-189 | An empty list shows only the "No facilities" line. Otherwise the output has the total and one card per facility among the first five, in order. |
| AbdmHospitalFinder.CardTitlesNumbered | blood-bank-backend/scripts/abdmHospitalFinder.js:177-179 | Card k's title starts with `"<k+1>. "`. A name of up to 53 characters is shown whole. |
| AbdmHospitalFinder.Border | blood-bank-backend/scripts/abdmHospitalFinder.js:178 | The border line is 60 characters wide. |
| AbdmHospitalFinder.TitleLineFitsBorder | blood-bank-backend/scripts/abdmHospitalFinder.js:178-179 | The title line is exactly as wide as the border, 60 characters. |
| AbdmHospitalFinder.TableTypeAllowed | blood-bank-backend/scripts/abdmHospitalFinder.js:149-154 | Each of the table's types `Hospital`, `Blood Bank` and `Clinic` passes the filter. |
| AbdmHospitalFinder.AllowedByPrefix | blood-bank-backend/scripts/abdmHospitalFinder.js:153 | A type whose lower-cased form starts with an allowed type passes the filter. |
| AbdmHospitalFinder.AllTypesAllowed | blood-bank-backend/scripts/abdmHospitalFinder.js:13-154 | Every facility in the mock table passes the filter. |
| AbdmHospitalFinder.MainShowsFirstFive | blood-bank-backend/scripts/abdmHospitalFinder.js:194-203 | `main` keeps all ten mock facilities and shows cards for the first five. |
| BloodStockMap.TotalAppend | blood-bank-app/src/pages/BloodStockMapPage.jsx:40 | The `reduce` total of a concatenation is the sum of the parts' totals. |
| BloodStockMap.MissingUnitsCountZero | blood-bank-app/src/pages/BloodStockMapPage.jsx:40 | A line without `unitsAvailable` adds 0 to the total. |
| BloodStockMap.TotalNonNegative | blood-bank-app/src/pages/BloodStockMapPage.jsx:40 | With no negative counts, the total is not negative. |
| BloodStockMap.LevelOfTotal | blood-bank-app/src/pages/BloodStockMapPage.jsx:41-44 | `empty` iff the total is 0; `low` iff it is non-zero and below 10; `medium` iff it is in 10..29; `high` iff it is ≥ 30. |
| BloodStockMap.GetStockLevel | blood-bank-app/src/pages/BloodStockMapPage.jsx:38-45 | `unknown` iff the inventory is missing or empty. Otherwise the level is the level of its total. |
| BloodStockMap.LevelMonotone | blood-bank-app/src/pages/BloodStockMapPage.jsx:41-44 | For non-negative totals, more units never give a lower level. |
| BloodStockMap.AddingStockNeverLowersLevel | blood-bank-app/src/pages/BloodStockMapPage.jsx:38-45 | Adding lines with non-negative counts never lowers an inventory's level. |
| BloodStockMap.GetStockColor | blood-bank-app/src/pages/BloodStockMapPage.jsx:47-55 | The four known levels get fixed colours, and anything else gets gray. |
| BloodStockMap.GrayIffUnknown | blood-bank-app/src/pages/BloodStockMapPage.jsx:38-55 | A hospital's colour is gray iff its inventory is missing or empty. |
| BloodStockMap.UnitColor | blood-bank-app/src/pages/BloodStockMapPage.jsx:168-172 | A count is green iff above 10, yellow iff in 6..10, and red iff missing or ≤ 5. |
| HospitalsPage.Or | blood-bank-app/src/pages/HospitalsPage.jsx:224-229 | `a \|\| b` is `a` when `a` is truthy, and `b` otherwise. |
| HospitalsPage.IndexById | blood-bank-app/src/pages/HospitalsPage.jsx:115 | `find` by id returns the first city with that id, or none. |
| HospitalsPage.IndexByName | blood-bank-app/src/pages/HospitalsPage.jsx:108 | `find` by name returns the first city whose name matches ignoring case, or none. |
| HospitalsPage.GetCityName | blood-bank-app/src/pages/HospitalsPage.jsx:113-117 | A falsy or unknown id gives `'N/A'`. Otherwise the result is the name of the first city with that id. |
| HospitalsPage.GetCityIdByName | blood-bank-app/src/pages/HospitalsPage.jsx:106-110 | A falsy name or no match gives `''`. Otherwise the result is the id of the first city whose name matches ignoring case. |
| HospitalsPage.CityLookupsRoundTrip | blood-bank-app/src/pages/HospitalsPage.jsx:106-117 | With unique, non-empty ids, the id found for a name leads back to a city with that name, ignoring case. |
| HospitalsPage.FilteredHospitals | blood-bank-app/src/pages/HospitalsPage.jsx:222-231 | A hospital is kept iff the lower-cased term occurs in one of its fields: name, phone or needed group (each with its fallback), the city name, or `city`. A kept hospital appears as often as in the input; the result keeps order, and its count is ≤ the total. |
| HospitalsPage.EmptySearchKeepsAll | blood-bank-app/src/pages/HospitalsPage.jsx:114-116 | When every city has a name, an empty search keeps every hospital. |
| HospitalsPage.EmptySearchCanHideUnnamedCity | blood-bank-app/src/pages/HospitalsPage.jsx:113-117 | Without that condition, a hospital linked only to a city without a name is hidden, even by an empty search. |
| HospitalsPage.HandleDelete | blood-bank-app/src/pages/HospitalsPage.jsx:68-72 | A non-manager gets the warning, with no API call and no state change. A manager proceeds to the call. |
| HospitalsPage.HandleAddClick | blood-bank-app/src/pages/HospitalsPage.jsx:86-103 | A non-manager gets the warning and nothing else. A manager gets the blank form (`isApproved` true) in the modal, with nothing being edited. |
| HospitalsPage.EditForm | blood-bank-app/src/pages/HospitalsPage.jsx:126-131 | Name, phone and needed group each take the current key if truthy, else the legacy key if truthy, else `''`. `City_Id` falls back to the name lookup, and email, password and `isApproved` are dropped. |
| HospitalsPage.HandleEditClick | blood-bank-app/src/pages/HospitalsPage.jsx:119-133 | A non-manager gets the warning and nothing else. A manager edits the hospital in the modal. |
| HospitalsPage.EditFormFieldsPresent | blood-bank-app/src/pages/HospitalsPage.jsx:127-129 | Each text field is non-blank iff the hospital has a truthy current or legacy key for it, and a non-blank field is one of those two values. |
| HospitalRequestsPage.GetStatusIcon | blood-bank-app/src/pages/hospital/HospitalRequestsPage.jsx:107-120 | Four statuses have their icons, and any other status gets the file icon. |
| HospitalRequestsPage.CancelledHasDefaultIcon | blood-bank-app/src/pages/hospital/HospitalRequestsPage.jsx:107-119 | `cancelled` gets the same icon as an unknown status. |
| HospitalRequestsPage.GetStatusColor | blood-bank-app/src/pages/hospital/HospitalRequestsPage.jsx:122-131 | The five known statuses get their colours, and any other status gets the pending colours. |
| HospitalRequestsPage.StatusColorsDistinct | blood-bank-app/src/pages/hospital/HospitalRequestsPage.jsx:123-129 | The five known statuses have five different colours. |
| HospitalRequestsPage.UnknownStatusLooksPending | blood-bank-app/src/pages/hospital/HospitalRequestsPage.jsx:130 | An unknown status looks exactly like a pending one. |
| HospitalRequestsPage.GetUrgencyIcon | blood-bank-app/src/pages/hospital/HospitalRequestsPage.jsx:133-142 | Only emergency and urgent have an icon, each its own. |
| HospitalRequestsPage.UrgencyBadge | blood-bank-app/src/pages/hospital/HospitalRequestsPage.jsx:239-246 | A badge is shown iff the urgency is not `routine`. It is red iff the urgency is emergency, and it carries the urgency text and icon. |
| HospitalRequestsPage.BadgeWithoutIcon | blood-bank-app/src/pages/hospital/HospitalRequestsPage.jsx:239-246 | An urgency other than routine, emergency or urgent shows a badge without an icon. |
| HospitalRequestsPage.CancellableLooksPending | blood-bank-app/src/pages/hospital/HospitalRequestsPage.jsx:251-258 | Cancel is offered only for `pending`, which shows the pending icon and colours and has its own tab. |
| HospitalRequestsPage.TabLabel | blood-bank-app/src/pages/hospital/HospitalRequestsPage.jsx:195 | `''` gives `All`. Otherwise the label is the status with its first letter upper-cased and the rest kept. |
| HospitalRequestsPage.TabLabels | blood-bank-app/src/pages/hospital/HospitalRequestsPage.jsx:185-195 | The tab labels are All, Pending, Approved, Fulfilled and Rejected. There is no cancelled tab. |
| HospitalRequestsPage.StatusParams | blood-bank-app/src/pages/hospital/HospitalRequestsPage.jsx:53 | An empty status sends no parameters. Any other status sends exactly `{status}`. |
| HospitalRequestsPage.TabParams | blood-bank-app/src/pages/hospital/HospitalRequestsPage.jsx:53 | The All tab sends no filter, and every other tab sends its own status. |
| HospitalRequestsPage.HandleSubmit | blood-bank-app/src/pages/hospital/HospitalRequestsPage.jsx:66-93 | A successful create resets the form to its initial values (urgency `routine`, the rest `''`), closes the modal and refetches. A raised error shows its message or `'Failed to create request'`. `submitting` is cleared in every case. |
| HospitalRequestsPage.RaisedErrorNotEmpty | blood-bank-app/src/pages/hospital/HospitalRequestsPage.jsx:88 | A failed submit never shows an empty error. |
| HospitalRequestsPage.ResetForgetsInput | blood-bank-app/src/pages/hospital/HospitalRequestsPage.jsx:77-84 | After a successful submit, the state does not depend on what was typed. |
| Header.Split | blood-bank-app/src/components/layout/Header.jsx:19 | `split(' ')` gives at least one piece, and no piece contains a space. |
| Header.JoinSplit | blood-bank-app/src/components/layout/Header.jsx:19 | Joining the pieces of `split(' ')` with spaces gives the name back. |
| Header.Heads | blood-bank-app/src/components/layout/Header.jsx:20-21 | Mapping each word to `word[0]` and joining gives at most one character per word. An empty word adds nothing. |
| Header.HeadsOfSplit | blood-bank-app/src/components/layout/Header.jsx:19-21 | The first characters of the pieces are exactly the characters that start a word. Empty pieces add nothing. |
| Header.GetInitials | blood-bank-app/src/components/layout/Header.jsx:16-24 | A falsy name gives `'U'`, and the result never has more than 2 characters. |
| Header.InitialsAreWordStarts | blood-bank-app/src/components/layout/Header.jsx:18-23 | The initials of a name are its first two word starts, upper-cased. |
| Header.NoStartsInSpaces | blood-bank-app/src/components/layout/Header.jsx:19-21 | A string of spaces has no word starts. |
| Header.SpacesOnlyYieldEmpty | blood-bank-app/src/components/layout/Header.jsx:17-23 | A truthy name made only of spaces gives `''`, not `'U'`. |
| Header.InitialsOfTwoWords | blood-bank-app/src/components/layout/Header.jsx:18-23 | `'ab  c'` gives `'AC'`: the repeated space adds nothing. |
| Header.RoleBadgeStyle | blood-bank-app/src/components/layout/Header.jsx:26-29 | The style is purple iff the role is `manager`, and blue otherwise. |
| Text.Upper | blood-stock-finder/blood_stock_finder.py:33 | Upper-casing keeps the length and maps each character. |
| Text.Lower | blood-bank-backend/scripts/abdmHospitalFinder.js:153 | Lower-casing keeps the length and maps each character. |
| Text.Strip | blood-stock-finder/blood_stock_finder.py:33 | A stripped string neither starts nor ends with white space. |
| Text.StripStart | blood-stock-finder/blood_stock_finder.py:33 | Stripping the start leaves a suffix of the string that does not start with white space. |
| Text.StripEnd | blood-stock-finder/blood_stock_finder.py:33 | Stripping the end leaves a prefix of the string that does not end with white space. |
| Text.ContainsIffOccurs | blood-bank-backend/scripts/abdmHospitalFinder.js:153 | `includes` is true iff the needle occurs at some offset. |
| Text.NotContainedByFirstChar | blood-bank-backend/scripts/abdmHospitalFinder.js:153 | `includes` is false when the needle's first character starts no window of the string. |
| Text.UpperOfNoLower | blood-bank-backend/routes/eraktkosh.routes.js:63 | Upper-casing leaves a string without lower-case ASCII letters unchanged. |
| Text.ContainsEmpty | blood-bank-app/src/pages/HospitalsPage.jsx:228 | Every string includes `''`. |
| Text.Prefix | blood-bank-backend/scripts/abdmHospitalFinder.js:179-182 | `substring(0, n)` is the prefix of length min(n, length). |
| Text.Spaces | blood-bank-backend/scripts/abdmHospitalFinder.js:179-185 | Padding is made of exactly n spaces. |
| Text.PadEnd | blood-bank-backend/scripts/abdmHospitalFinder.js:179-185 | `padEnd(n)` has length max(n, length), keeps the string as its prefix and fills the rest with spaces. |
| Text.NatToString | blood-bank-backend/routes/eraktkosh.routes.js:70 | A rendered count is a non-empty string of digits. |
| Text.LeadingDigits | blood-bank-backend/routes/eraktkosh.routes.js:70 | `parseInt` reads the longest run of leading digits. |
| Text.DropJsSpace | blood-bank-backend/routes/eraktkosh.routes.js:70 | `parseInt` first skips all leading white space. |
| Text.DigitsValueOfNatToString | blood-bank-backend/routes/eraktkosh.routes.js:70 | Reading the digits of a rendered count gives the count back. |
| Text.LeadingDigitsOfConcat | blood-bank-backend/routes/eraktkosh.routes.js:70 | The digit run stops at the first non-digit (the space before `Units`). |
| Text.ParseIntOfUnits | blood-bank-backend/routes/eraktkosh.routes.js:70 | `parseInt("<n> Units")` is n: the stock label round-trips. |
| Text.NatToStringInjective | blood-bank-backend/routes/eraktkosh.routes.js:70 | Distinct counts give distinct labels. |
| Sequences.Filter | blood-bank-backend/scripts/abdmHospitalFinder.js:152-154 | `filter` never lengthens the list, and it keeps only elements of the input that satisfy the predicate. |
| Sequences.FilterCount | blood-bank-backend/scripts/abdmHospitalFinder.js:152-154 | `filter` keeps every occurrence of an element satisfying the predicate and drops every other element. |
| Sequences.FilterMembership | blood-bank-app/src/services/eRaktKoshService.js:91 | An element is kept iff it is in the input and satisfies the predicate. |
| Sequences.FilterAppend | blood-bank-app/src/pages/HospitalsPage.jsx:222-231 | Filtering a concatenation filters both parts and keeps them in order. |
| Sequences.FilterIsSubsequence | blood-bank-backend/scripts/abdmHospitalFinder.js:151-155 | The filtered list is an order-preserving subsequence of the input. |
| Sequences.FilterIdempotent | blood-bank-backend/scripts/abdmHospitalFinder.js:151-155 | Filtering twice with the same predicate equals filtering once. |
| Sequences.FilterAll | blood-bank-app/src/services/eRaktKoshService.js:91 | When every element satisfies the predicate, the whole list is kept. |

## Left out

- Network, device and console I/O are not modelled:
  - the finder's HTTP request, shown as a parameter that is either the decoded response or the error it raised;
  - interactive prompts, `tabulate` and console printing;
  - browser geolocation;
  - the Express request and response objects, where the query is passed as strings.
- `setTimeout` delays are not modelled. Neither is the 500 path of `/nearby-blood-stock`, because no exception can arise in its body for string queries.
- `bg` given as an array (a repeated query key) is not modelled: the route's `bg` is a string or absent.
- The request state machine, the inventory decrement, emergency counting and rewards are not modelled. They live in controllers that are not part of this model.
- Seed and maintenance scripts and the pure UI pages are not modelled.
- `Math.random()` is a parameter: a stream of values in [0, 1).
- Floating-point arithmetic is modelled with reals. Distance jitter is therefore exact, and the haversine distance is left out.
- The finder's `"%.2f km"` text is not produced. A numeric distance is only marked as `Kilometres`.
- AbdmHospitalFinder.DisplayResults: the distance cell (`f.distance + ' km'`) is not produced, because JavaScript's number-to-string conversion is not modelled. The card keeps the number.
- AbdmHospitalFinder.DisplayResults also leaves out the banner lines and the emoji-prefixed lines, and makes no claim about their display width.
- Text.Upper and Text.Lower map ASCII letters only, one character to one character. Python's `upper`/`lower` and JavaScript's `toUpperCase`/`toLowerCase` also map other letters: `'é'` becomes `'É'`, `'ß'` becomes the two letters `"SS"`, and the Kelvin sign U+212A lower-cases to the ASCII `'k'`. The fixed strings (the blood groups, table keys, status words, tab names and allowed facility types) are ASCII, so on them the two agree. On free text they can differ, and the members below inherit that difference.
- HospitalsPage.FilteredHospitals compares the search term and the hospital fields with ASCII-only lower-casing, so `'É'` in a field does not match `'é'` in the term, as it would in the page.
- HospitalsPage.GetCityIdByName and HospitalsPage.FindByName compare city names the same way, so a name differing only in a non-ASCII letter's case is not found.
- Header.GetInitials upper-cases ASCII initials only. A user whose name starts with `'é'` keeps the lower-case letter. A user called `"ßa Bo"` gets `"ßB"`, whereas the page upper-cases the starts to `"SSB"` before keeping two characters and shows `"SS"`.
- HospitalRequestsPage.TabLabel upper-cases an ASCII first letter only. It is applied to the fixed tab names, where this makes no difference.
- AbdmHospitalFinder.FilterFacilities lower-cases the type ASCII-only, so a type written with the Kelvin sign (`"BLOOD BAN\u212A"`) passes the script's filter but not the model's.
- BloodStockFinder.GetBloodGroupCode and EraktkoshRoutes.NormalizeBg upper-case ASCII letters only. No non-ASCII character upper-cases to a string made only of `A`, `B`, `O`, `+` and `-`, so the inputs that find a table key are the same. On a group that finds no key the normalised text can differ, but the outcome does not: the route serves the O+ list and the finder rejects the group.
- Text.ParseInt reads decimal text only. `parseInt` is called without a radix, so JavaScript would read a `"0x"` prefix as hexadecimal. Every stock label it is applied to starts with a decimal count, so this never arises.
- Strings are sequences of Unicode code points. JavaScript indexes UTF-16 code units, so `substring`, `padEnd`, `word[0]` and `charAt(0)` agree with the model only on text without astral characters.
- BloodStockFinder.Shorten truncates string values only. In Python, a non-string whose `str()` is longer than the limit makes the slice-plus-`'...'` raise. The broad `except` in the search then returns `[]`, and that path is not modelled.
- BloodStockFinder.ReportsError looks only at string statuses. A number or boolean status cannot lower-case to one of the error words, except the falsy `0`, which is skipped.
- EraktkoshService.BanksOf models the lookup as a plain map. A group name such as `constructor` would find an inherited JavaScript property and make `.map` throw; that case is not modelled.
- BloodStockMap.Total treats counts as integers. A string count would make JavaScript concatenate instead of add; that case is not modelled.
- HospitalsPage: the toasts, the API calls after the role check and the data fetches are not modelled. `City_Id` and the other fields are modelled as strings, and a numeric id is not modelled.
- HospitalRequestsPage: `handleCancel`'s `window.confirm` and the cancel API call are not modelled. The request list and its loading state are not modelled either.
- HospitalRequestsPage.GetStatusColor models `colors` as a plain map. A status equal to an inherited object key such as `constructor` would yield that property instead of the pending colours; that case is not modelled.
