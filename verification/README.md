# housing_nextjs_ui — a Dafny model of the client core

This project models the logic of the client side of a house-price prediction app. The model covers five things.

- **Signup.** A user fills in a signup form with six fields: name, phone number, property type, bedrooms, bathrooms and location. The form registers the user with a prediction service. It then keeps the search criteria in the browser's `localStorage` and moves to the listings page.
- **Listings page.** This page reads the criteria back, or sends the user to `/` when there are none. It asks the service for listings priced below their prediction and shows them as cards.
- **Viewing a listing.** Choosing a listing stores it under `selectedProperty` and opens the property page.
- **Property page.** This page shows the stored listing, a chart of its SHAP price contributions (contributions from SHapley Additive exPlanations), and a breakdown of those contributions in text. The breakdown inverts the sense of each contribution.
- **Cheaper locations.** The property page also fetches cheaper locations for the listing. A stand-alone card fetches cheaper locations for a fixed profile.

Modules, in dependency order:

- `Options`: the `Option` type.
- `Text`:
  - substring search;
  - `String.prototype.replace` with a string pattern, which replaces the first match only;
  - decimal rendering;
  - JavaScript's `parseInt`: leading white space, a sign, a `0x` prefix, the longest digit prefix, and `NaN` as `None`.
- `Records`: the contribution, attribution, listing, form and cheaper-locations records.
- `Codec`: a length-prefixed text encoding that stands in for `JSON.stringify` and `JSON.parse`. Its round trip is proved.
- `Session`: `localStorage` as a `map<string, string>`, with the keys `user_id`, `user_details` and `selectedProperty`.
- `Fetch`: what a `fetch` can come back with, and the message rules of the components' `catch` blocks.
- `Requests`: the three request bodies.
- `Explanation`: the chart data, the breakdown text and the factors section.
- `Sampler`: the random shuffle and the ten-location sample.
- One module per component: `PropertyList`, `ListingsPage`, `SignupForm`, `CheaperLocations` and `PropertyDetails`.

How the model handles the parts it cannot run:

- **Responses.** A response is given as a parameter: its `ok` flag, its status, its body text and the result of `response.json()`.
- **Randomness.** The comparator `() => 0.5 - Math.random()` becomes an explicit sequence of draws. Each draw picks the next location among those not yet placed. Every sequence of draws yields a permutation, and every permutation is yielded by some sequence of draws.
- **Navigation and alerts.** These are returned as values.

## Model

| member | source | states |
|---|---|---|
| Text.ReplaceFirstSpec | components/PropertyDetails.tsx:191 | `replace` with a string pattern leaves the text unchanged when the pattern is absent. Otherwise it splices the replacement in place of exactly the first occurrence and keeps every other character. |
| Text.ParseIntShowInt | components/PropertyList.tsx:50-51 | `parseInt` of a decimal rendering gives back the integer, including negatives. |
| Text.ParseIntReadsShowInt | components/PropertyDetails.tsx:67-68 | `parseInt` skips leading JavaScript white space and stops at the first character that cannot continue the number. |
| Text.ParseIntNaN | components/PropertyList.tsx:50-51 | Text that does not start with a sign or a digit after white space parses to `NaN`. |
| Text.TrimStart | components/PropertyList.tsx:50 | The part `parseInt` skips is all white space, and what remains does not start with white space. |
| Text.LeadingDigits | components/PropertyList.tsx:50 | The digits `parseInt` reads are the longest prefix of digits of the radix. |
| Text.ShowNatInjective | components/PropertyDetails.tsx:76 | Distinct status numbers render as distinct decimal texts. |
| Codec.ListingRoundTrip | components/PropertyList.tsx:74-77 | Parsing the stored text of a listing gives back the same listing, SHAP contributions included. |
| Codec.FormRoundTrip | components/SignupForm.tsx:56 | Parsing the stored text of the signup form gives back the same form. |
| Codec.StringifyListingInjective | components/PropertyList.tsx:74-77 | Distinct listings are stored as distinct texts. |
| Session.SetItem | components/SignupForm.tsx:55-56 | `setItem` makes the key hold the value and leaves every other key as it was. |
| Session.LoadAfterSaveListing | components/PropertyDetails.tsx:48-50 | A listing stored under `selectedProperty` is read back unchanged, and storing it leaves the stored criteria alone. |
| Session.LoadAfterSaveForm | components/ListingsPage.tsx:20-22 | Criteria stored under `user_details` are read back unchanged, and storing them leaves the selected listing alone. |
| Session.MissingKeyIsAbsent | components/PropertyDetails.tsx:48-49 | A missing key reads as absent, never as a default. |
| Fetch.MessageOr | components/PropertyList.tsx:61 | `data.message \|\| fallback` is the message when it is a non-empty string and the fallback otherwise. |
| Fetch.SettleJson | components/PropertyList.tsx:57-64 | A request succeeds exactly when the response is ok and its body decoded, and then it holds the body. A non-ok response fails with the server's message or the fallback. An undecodable body fails with the decoder's message. A rejection fails with the error's message, or with "An error occurred" for a thrown non-`Error`. |
| Fetch.NonOkFailsVisibly | components/PropertyList.tsx:60-62 | With a non-empty fallback, a non-ok response always fails with a non-empty, and so visible, message. |
| Requests.SearchBodyCarriesCriteria | components/PropertyList.tsx:49-55 | Stored bedroom and bathroom counts written in decimal reach the service as those numbers. Location and type are copied, and `Province_City` is `Ontario_Toronto`. |
| Requests.TypeFromTitle | components/PropertyDetails.tsx:71 | The type is "House" exactly when the title contains "House", and "Condo" otherwise. |
| Text.ContainsIff | components/PropertyDetails.tsx:71 | `includes` holds exactly when the pattern occurs at some position of the text. |
| Requests.CheaperBodyShape | components/PropertyDetails.tsx:66-72 | The cheaper-locations body copies the listing's location and parses both its bedroom and its bathroom counts. It always names Ontario_Toronto, and asks for a house exactly when "House" occurs at some position of the title. |
| Requests.FixedBodyIsSearchFor | components/CheaperLocations.tsx:23-29 | The stand-alone card's fixed body is the search body for a three-bedroom, two-bathroom house in Toronto. |
| Explanation.AbsValues | components/PropertyDetails.tsx:114-115 | Each item is kept in place with its value replaced by the absolute value. |
| Explanation.ChartData | components/PropertyDetails.tsx:112-117 | The chart data is empty without SHAP contributions. Otherwise its length is \|positive\| + \|negative\|, and it is a permutation of the absolute-valued concatenation. It is sorted by non-increasing value, keeps every group of equal values in concatenation order, and has only non-negative values. |
| Explanation.ChartDataIsTheStableOrder | components/PropertyDetails.tsx:116 | A sequence is the chart data exactly when it is sorted by descending value and keeps ties in concatenation order. The chart is therefore the stable sort, in both directions. |
| Explanation.SortKeepsTies | components/PropertyDetails.tsx:116 | Sorting keeps the relative order of items with equal values, as the stable `Array.prototype.sort` does. |
| Explanation.SortedTiesDetermine | components/PropertyDetails.tsx:116 | Two descending sequences that agree on every group of equal values are equal. |
| Explanation.ChartChangesOnlyValue | components/PropertyDetails.tsx:114-115 | Every chart entry is an item of one of the two lists with only its value replaced by the absolute value. |
| Explanation.Relabel | components/PropertyDetails.tsx:188-199 | One breakdown line per item, in order, each with the first-occurrence replacement applied to its text. |
| Explanation.BreakdownNegativeLine | components/PropertyDetails.tsx:188-193 | Negative items come first, as rising lines whose first "reduced" becomes "increased". Text without "reduced" is unchanged. |
| Explanation.BreakdownPositiveLine | components/PropertyDetails.tsx:194-199 | Positive items follow all negative ones, as falling lines whose first "increased" becomes "reduced". Text without "increased" is unchanged. |
| Explanation.FactorsSection | components/PropertyDetails.tsx:158-203 | The factors section is shown exactly when SHAP contributions are present and non-empty, and then it holds the chart data and the breakdown. |
| Explanation.SinglePositiveReducedExample | components/PropertyDetails.tsx:194-197 | A single positive item of -5000 reading "Size reduced price by $5000" charts as 5000 and keeps its text: the rule for positive items rewrites only "increased". |
| Sampler.Shuffle | components/PropertyDetails.tsx:120 | Whatever the draws, the shuffled list is a permutation of the input. |
| Sampler.EveryPermutationIsReachable | components/PropertyDetails.tsx:120 | Every permutation of the list is the result of some draws, so the draws model an arbitrary permutation. |
| Sampler.Sample | components/PropertyDetails.tsx:119-121 | The sample has length min(10, K), is a prefix of the shuffled list, and is a sub-multiset of the input. |
| Sampler.SampleHasNoDuplicates | components/PropertyDetails.tsx:119-121 | A list without duplicates gives a sample without duplicates. |
| PropertyList.Resolve | components/PropertyList.tsx:57-67 | An ok response replaces the listings with the body's and leaves `error` as it was. A non-ok response sets `error` to the server's message or "Failed to fetch properties". A thrown `Error` sets its message, and anything else thrown gives "An error occurred". `loading` is false after every outcome. |
| PropertyList.Render | components/PropertyList.tsx:81-124 | Loading shows the spinner. Otherwise a truthy error shows its text. Otherwise the grid shows one card per listing, in order, and "No properties found" exactly when the list is empty. |
| PropertyList.InitialSettlesOnce | components/PropertyList.tsx:38-67 | From the initial state the spinner shows first, and one settled fetch shows exactly one outcome: the returned listings or the error message. An `Error` with an empty message is the exception: it shows as "No properties found". |
| PropertyList.EmptyAnswerIsNoneFound | components/PropertyList.tsx:122-124 | An ok answer with no listings shows "No properties found", not an error. |
| PropertyList.ServerMessageIsShown | components/PropertyList.tsx:60-64 | A status-500 answer with the message "db down" sets and shows exactly "db down". |
| PropertyList.ErrorIsNeverCleared | components/PropertyList.tsx:58-59 | A success after an error leaves the error in place, and it is still what is shown. |
| PropertyList.ViewDetails | components/PropertyList.tsx:73-79 | The chosen listing is stored under `selectedProperty` and reads back unchanged. Every other key is left alone, and the path is `/property/` followed by the id. |
| PropertyList.UnchangedCriteriaNoRefetch | components/PropertyList.tsx:71 | Re-rendering with unchanged criteria sends no request. |
| PropertyList.MountFetchesOnce | components/PropertyList.tsx:43-71 | Mounting and any number of re-renders with the same criteria send exactly one request, built from those criteria. |
| PropertyList.ChangedCriteriaRefetch | components/PropertyList.tsx:71 | A change of criteria sends one further request, for the new criteria. |
| ListingsPage.LoadOrRedirect | components/ListingsPage.tsx:19-26 | The page navigates to `/` exactly when `user_details` is missing or empty. It adopts the stored criteria exactly when they parse. |
| ListingsPage.Render | components/ListingsPage.tsx:28-45 | The spinner shows exactly while there are no criteria, so the list never renders without them. The list receives exactly the adopted criteria, and the summary holds the bedrooms, bathrooms, type and location verbatim at fixed places. |
| ListingsPage.SummaryLayout | components/ListingsPage.tsx:41 | Each shown field of the criteria sits verbatim at a known position in the summary, with the location ending it. |
| ListingsPage.SummaryDeterminesShownFields | components/ListingsPage.tsx:41 | Criteria with the same summary and the same field lengths have the same shown fields. |
| ListingsPage.SignupThenSearch | components/ListingsPage.tsx:20-22 | After a successful signup for 3 bedrooms, 2 bathrooms and a house in Toronto, the page adopts those criteria. The list's one request sends 3 and 2 as numbers, Toronto, Ontario_Toronto and House. |
| ListingsPage.NoCriteriaRedirects | components/ListingsPage.tsx:23-25 | Without stored criteria the only action is the move to `/`, and the spinner shows. |
| SignupForm.LocationOptions | components/SignupForm.tsx:9-20 | The location select offers the ten cities in order, each labelled by itself. |
| SignupForm.TypeOptions | components/SignupForm.tsx:22-26 | The type select offers Condo, House and Townhouse, each labelled by itself. |
| SignupForm.InitialFormIsEmpty | components/SignupForm.tsx:30-37 | All six fields start empty. |
| SignupForm.HandleChange | components/SignupForm.tsx:40-42 | The named field takes the new value, and every other field keeps its value. |
| SignupForm.HandleChangeIsTheUpdate | components/SignupForm.tsx:40-42 | `handleChange`'s result is the only form that sets the named field and keeps the others. |
| SignupForm.HandleChangeIdempotent | components/SignupForm.tsx:40-42 | Repeating the same change to a field gives the same form as making it once. |
| SignupForm.FieldsDetermineForm | components/SignupForm.tsx:30-37 | A form is determined by its six fields. |
| SignupForm.Start | components/SignupForm.tsx:44-52 | Submitting sets `isLoading` and sends the whole form as the body. |
| SignupForm.Submit | components/SignupForm.tsx:53-66 | An ok response stores `user_id` and the form under `user_details`, touches no other key, alerts "User created successfully" and navigates to `/listings`. A non-ok response alerts the server's message or "Something went wrong". A rejection alerts the error's message or "An error occurred". Failures leave the store unchanged. `isLoading` ends false. |
| SignupForm.NavigatesOnlyOnSuccess | components/SignupForm.tsx:54-63 | The page navigates exactly when registration succeeded, only ever to `/listings`, and a failure never changes the store. |
| CheaperLocations.Resolve | components/CheaperLocations.tsx:31-41 | An ok response stores the body as `data`. A non-ok response sets `error` to the server's message or "Failed to fetch cheaper locations". A rejection sets the error's message or "An error occurred". `loading` ends false. |
| CheaperLocations.Render | components/CheaperLocations.tsx:47-62 | Loading comes first, then a truthy error, then nothing when there is no data, then the card with the predicted price and every location in the order received. |
| CheaperLocations.InitialSettlesOnce | components/CheaperLocations.tsx:12-49 | The card starts loading, and one settled fetch shows either the returned locations or the error message. |
| PropertyDetails.MountWith | components/PropertyDetails.tsx:47-55 | A stored listing is adopted and its cheaper-locations request, built from it, starts at once. Nothing stored means no request. Unparseable text crashes. `loading` ends false. |
| PropertyDetails.HttpErrorCarriesStatus | components/PropertyDetails.tsx:74-77 | The message for a non-ok answer parses back to its status after the lead, and ends with the body text. |
| PropertyDetails.HttpErrorInjective | components/PropertyDetails.tsx:76 | Different statuses or body texts give different messages. |
| PropertyDetails.SettleCheaper | components/PropertyDetails.tsx:57-86 | A non-ok answer gives "HTTP error! status: s, message: text". An ok answer stores the decoded body. A rejection gives its message or "An unknown error occurred". The subsection stops loading, and the listing and page state are untouched. |
| PropertyDetails.NonOkNamesStatus | components/PropertyDetails.tsx:74-84 | A non-ok answer always leaves a visible error from which the status can be read back. |
| PropertyDetails.Render | components/PropertyDetails.tsx:88-232 | The precedence is: the spinner; then "Property Not Found" with no redirect; then the listing with its factors section; then, within the subsection, its spinner, its error, the locations with the predicted price, and finally "No cheaper locations found". The locations shown are the whole stored list after the in-place shuffle: a permutation of full length, which also becomes the stored list. |
| PropertyDetails.RendersKeepLocations | components/PropertyDetails.tsx:119-121 | However many renders shuffle the stored list, it stays a permutation of what the service sent, and nothing else in the state changes. |
| PropertyDetails.ShowsAllNotSample | components/PropertyDetails.tsx:219-224 | With more than ten locations, all of them are shown, while the unused sample keeps ten. |
| PropertyDetails.AnyOrderCanBeShown | components/PropertyDetails.tsx:119-120 | Any order of the locations can be the one shown. |
| PropertyDetails.MissingListingIsNotFound | components/PropertyDetails.tsx:96-110 | With no stored listing the page shows "Property Not Found", sends no request and does not redirect. |
| PropertyDetails.ChosenListingIsShown | components/PropertyDetails.tsx:47-52 | A listing stored by the list page is shown with its own factors section, and its request is built from it. |

Two behaviours of the code are easy to misread, and the model states them as the code has them.

- **Positive items whose text says "reduced".** Line 197 of `components/PropertyDetails.tsx` replaces only "increased" with "reduced". A positive item whose text says "reduced" is therefore shown unchanged, not inverted (`Explanation.SinglePositiveReducedExample`).
- **Missing keys.** Only `ListingsPage` redirects when its key is missing. `PropertyDetails` shows "Property Not Found" and stays (`PropertyDetails.MissingListingIsNotFound`).

## Left out

- HTTP, `fetch` and the service itself. A response is a parameter, and the model does not read `Content-Type` or any headers.
- The JSON text format. `Codec` is a stand-in encoding: the components rely only on the round trip, which is proved for it, not on the exact characters.
- The shape of a decoded response body. A body missing its fields, or a `data` that is `null`, would make the components fail in ways the model does not follow. The model assumes the body has the fields the service documents.
- Stored text that parses to a value of another shape, such as `"null"`. The model sees only text that decodes to the record, or text that does not decode (a crash).
- `response.text()` failing. This case is not modelled.
- Floating-point numbers. SHAP values and prices are integers, because only their sign, absolute value and order matter here. `parseInt` is exact on arbitrarily long digit strings, whereas JavaScript rounds past 2^53.
- `Math.random` and the comparator's actual behaviour. Any sequence of draws is allowed, so nothing is said about the distribution.
- React scheduling: effects, re-render batching, unmount races and stale responses. Each effect run is modelled as a mount followed by one settled fetch.
- PropertyList.RequestsAfter: compares criteria by value, while React compares the `userDetails` object by identity. A freshly parsed but equal object would fetch again in React.
- `$` patterns in the replacement string of `replace`. The two replacements contain none.
- JSX, styling, icons, the chart library, `toLocaleString` formatting, `console.error`, the Back buttons (`router.back()`), and the layout and UI components.
- `randomCheaperLocations`. It is computed and discarded. Its length and permutation properties are proved (`Sampler.Sample`), but nothing renders it.
