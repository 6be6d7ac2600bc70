# world-wise: city store, flag encoder and URL selectors in Dafny

This project models the logic at the centre of the world-wise travel journal,
a React application in which a user records visited cities on a map. What is
modelled:

- **The city store** (`src/contexts/CityContext.tsx`). The store holds the
  city list, the loading flag, the selected ("current") city and the last
  error. `Reduce` is the reducer as a pure function over `State` and `Action`.
  `CityStore` is the provider as a class with those four fields. Each provider
  operation is a method that runs the source's sequence of dispatches. The
  `fetch` of each operation is replaced by an `Outcome` parameter: either the
  parsed response body (for delete, the HTTP status) or a thrown value. A
  thrown value is an `Error` with a message, or anything else.
- **The flag encoder** (`src/utils/convertToEmoji.ts`). An upper-cased country
  code becomes a sequence of Unicode regional indicator symbols (Unicode
  Technical Standard #51, Annex B). The output is modelled as a sequence of
  code points.
- **The visited-countries list** (`src/components/VisitedCountries/VisitedCountries.tsx`).
  This is the distinct countries of the city list, in order of first
  appearance, each with the emoji of its first city.
- **The coordinate lookup** (`src/hooks/useCityFromUrl.ts`) and **the URL
  position guard** (`src/hooks/useUrlPosition.ts`). Both read the `lat`/`lng`
  query parameters. `parseFloat` is a parameter of type `string -> Number`.
  `Number` is a JavaScript number with `NaN` and the infinities: NaN is `===`
  to nothing, and every comparison with NaN is false.
- **The fake auth reducer** (`src/contexts/FakeAuthContext.tsx`).

Shared modules: `Wrappers` (Option), `JsNumber`, `JsArray` (`find` and
`filter` with their lemmas), `SearchParams` (`URLSearchParams.get` over the
decoded name/value pairs) and `Cities` (the city record).

`src/types/City.ts` is not part of this model. The fields of `City` are taken
from how the components read a city.

The model follows the code in these places, where a reader of the store might expect otherwise:
- `getCity` fetches and selects even when the requested id is already the
  current city. There is no same-id short-circuit.
- `createCity` does not validate the draft.
- A delete answered with a status other than 200 is only logged. It changes
  nothing but the loading flag, which ends cleared.
- A failed initial load records an error only when the thrown value is an
  `Error`. The recorded message may be empty.

## Model

| member | source | states |
|---|---|---|
| JsNumber.NaNEqualsNothing | src/hooks/useCityFromUrl.ts:24-26 | NaN is strictly equal to no number, itself included |
| JsNumber.StrictEqualsIsEquality | src/hooks/useCityFromUrl.ts:24-26 | away from NaN, `===` holds exactly when the two numbers are equal |
| JsArray.Find | src/hooks/useCityFromUrl.ts:24-26 | a found element is in the list and satisfies the predicate; nothing is found iff no element satisfies it |
| JsArray.FindFirst | src/hooks/useCityFromUrl.ts:24-26 | `find` returns the element at the lowest index that satisfies the predicate |
| JsArray.Filter | src/contexts/CityContext.tsx:67 | the result is no longer than the input; every kept element is in the input and passes; every passing element is kept |
| JsArray.FilterAppend | src/contexts/CityContext.tsx:67 | filtering a concatenation is the concatenation of the filtered parts, so order is kept |
| JsArray.FilterKeepsAll | src/contexts/CityContext.tsx:67 | a list whose every element passes is returned unchanged |
| JsArray.FilterIdempotent | src/contexts/CityContext.tsx:67 | filtering twice with one predicate equals filtering once |
| SearchParams.Get | src/hooks/useCityFromUrl.ts:51-52 | a returned value belongs to a pair with that name; null is returned iff no pair has that name |
| SearchParams.GetFirst | src/hooks/useCityFromUrl.ts:51-52 | a returned value is that of the first pair with the name: no earlier pair has it |
| CityContext.InitialState | src/contexts/CityContext.tsx:34-39 | the initial state has no cities, is not loading, has nothing selected and has no error |
| CityContext.WithoutId | src/contexts/CityContext.tsx:64-68 | no remaining city has the deleted id, every remaining city was in the list, and every city with another id remains |
| CityContext.ReduceChangesOneField | src/contexts/CityContext.tsx:52-74 | SET_LOADING, SET_CITIES, SET_CURRENT_CITY, ERROR and CLEAR_ERROR each set one field to the payload (or null) and keep the other three |
| CityContext.Reduce | src/contexts/CityContext.tsx:50-79 | only SET_LOADING changes the flag; only the three list actions change the list; only SET_CURRENT_CITY changes the selection; only ERROR and CLEAR_ERROR change the error; the new value of each field is given by ReduceChangesOneField, AddCityAppends and DeleteCityRemoves |
| CityContext.AddCityAppends | src/contexts/CityContext.tsx:61-62 | ADD_CITY makes the list one longer, keeps its prefix, puts the city last and changes nothing else |
| CityContext.DeleteCityRemoves | src/contexts/CityContext.tsx:64-68 | after DELETE_CITY no city has the id, the other cities are all kept, no city is added, and the selection, flag and error are unchanged |
| CityContext.DeleteCityKeepsOrder | src/contexts/CityContext.tsx:67 | deleting from a concatenation deletes from each part in place, so the original order is kept |
| CityContext.DeleteCityAbsent | src/contexts/CityContext.tsx:67 | deleting an id no city has leaves the list unchanged |
| CityContext.DeleteCityIdempotent | src/contexts/CityContext.tsx:64-68 | applying DELETE_CITY twice with one id equals applying it once |
| CityContext.ErrorAfterCatch | src/contexts/CityContext.tsx:103-107 | a thrown `Error` records its message; any other thrown value leaves the error as it was |
| CityContext.CityStore.constructor | src/contexts/CityContext.tsx:34-39 | the store starts empty, not loading, with nothing selected and no error |
| CityContext.CityStore.Dispatch | src/contexts/CityContext.tsx:90 | a dispatch replaces the state with the reducer's result |
| CityContext.CityStore.Catch | src/contexts/CityContext.tsx:129-133 | the catch block changes only the error, as ErrorAfterCatch says |
| CityContext.CityStore.LoadCities | src/contexts/CityContext.tsx:92-112 | loading ends cleared; on a response the list is the body; on a throw the list is unchanged and the error follows the catch rule; the selection is never touched |
| CityContext.CityStore.GetCity | src/contexts/CityContext.tsx:118-137 | loading ends cleared and the list is unchanged; a response always becomes the selection, with no same-id shortcut; a throw keeps the selection and follows the catch rule |
| CityContext.CityStore.CreateCity | src/contexts/CityContext.tsx:143-169 | loading ends cleared; a response is appended to the previous list and selected; a throw keeps list and selection and follows the catch rule |
| CityContext.CityStore.DeleteCity | src/contexts/CityContext.tsx:175-209 | loading ends cleared; status 200 removes the id and clears the selection exactly when the selected city has that id; another status changes list, selection and error not at all; a throw keeps list and selection and follows the catch rule |
| CityContext.CityStore.ClearError | src/contexts/CityContext.tsx:212-214 | the error becomes null and nothing else changes |
| CityContext.DeleteSelectedCity | src/contexts/CityContext.tsx:189-195 | loading cities 1 and 2, selecting 1 and deleting 1 with status 200 leaves [2], nothing selected and loading cleared |
| CityContext.Mount | src/contexts/CityContext.tsx:89-112 | after mounting, loading is cleared and nothing is selected; a successful load installs the body with no error; a failed load keeps the list empty |
| ConvertToEmoji.ToUpper | src/utils/convertToEmoji.ts:8 | a lower-case ASCII letter becomes its upper-case letter, 32 below; every other character is unchanged |
| ConvertToEmoji.UpperCase | src/utils/convertToEmoji.ts:8 | upper-casing keeps the length, moves each lower-case letter down by 32 to its upper-case letter, leaves every other character in place, and so turns a string of letters into upper-case letters; ConvertIgnoresCase shows the flag does not depend on it |
| ConvertToEmoji.Convert | src/utils/convertToEmoji.ts:6-12 | the flag has exactly one code point per input character |
| ConvertToEmoji.ConvertAt | src/utils/convertToEmoji.ts:8-10 | code point i is 127397 plus the code of upper-cased character i |
| ConvertToEmoji.ConvertEmpty | src/utils/convertToEmoji.ts:7-11 | the empty code gives the empty string |
| ConvertToEmoji.ConvertLettersToIndicators | src/utils/convertToEmoji.ts:10 | letters of either case map into U+1F1E6..U+1F1FF |
| ConvertToEmoji.ConvertRoundTrip | src/utils/convertToEmoji.ts:8-10 | reading the flag of a letter code back gives the upper-cased code |
| ConvertToEmoji.ConvertInjective | src/utils/convertToEmoji.ts:10 | two upper-case letter codes with the same flag are the same code |
| ConvertToEmoji.ConvertIgnoresCase | src/utils/convertToEmoji.ts:8 | a code, its lower-case form and its upper-case form give the same flag |
| ConvertToEmoji.ConvertExamples | src/utils/convertToEmoji.ts:6-12 | "PT" gives U+1F1F5 U+1F1F9, and "us" gives the same flag as "US" |
| VisitedCountries.CountriesOf | src/components/VisitedCountries/VisitedCountries.tsx:15 | the country of each city, one per city, in list order |
| VisitedCountries.CountryData | src/components/VisitedCountries/VisitedCountries.tsx:17-25 | one entry per distinct country value |
| VisitedCountries.Distinct | src/components/VisitedCountries/VisitedCountries.tsx:15-17 | the Set is no longer than the list and holds only values of it; DistinctMembers and DistinctOrder give completeness, no repeats and first-appearance order |
| VisitedCountries.DistinctMembers | src/components/VisitedCountries/VisitedCountries.tsx:15 | building the Set keeps exactly the values that occur, each once |
| VisitedCountries.DistinctOrder | src/components/VisitedCountries/VisitedCountries.tsx:15 | kept values come in the order of their first occurrence |
| VisitedCountries.FindFirstOfCountry | src/components/VisitedCountries/VisitedCountries.tsx:19 | the `find` by country returns the first city of that country |
| VisitedCountries.CountryDataNames | src/components/VisitedCountries/VisitedCountries.tsx:15-17 | the entry names are pairwise distinct, and a country is named iff some city has it |
| VisitedCountries.CountryDataLength | src/components/VisitedCountries/VisitedCountries.tsx:15-17 | the number of entries is the number of distinct countries in the list |
| VisitedCountries.CountryDataOrder | src/components/VisitedCountries/VisitedCountries.tsx:15-17 | entries come in the order in which their countries first appear in the list |
| VisitedCountries.CountryDataFlags | src/components/VisitedCountries/VisitedCountries.tsx:19-22 | each flag is the emoji of the first city with that country, so the empty fallback is never used |
| VisitedCountries.CountryDataEmpty | src/components/VisitedCountries/VisitedCountries.tsx:35 | an empty city list gives no entries |
| VisitedCountries.CountryDataExample | src/components/VisitedCountries/VisitedCountries.tsx:15-25 | PT, PT, FR gives PT with the first PT city's emoji, then FR |
| CityFromUrl.FindCityByLatAndLng | src/hooks/useCityFromUrl.ts:19-27 | a returned city is in the list and matches both coordinates; undefined is returned iff no city matches on both |
| CityFromUrl.FindCityFirstMatch | src/hooks/useCityFromUrl.ts:24-26 | the returned city is the lowest-index match |
| CityFromUrl.FindCityNaN | src/hooks/useCityFromUrl.ts:24-26 | a NaN latitude or longitude matches no city |
| CityFromUrl.ParseParam | src/hooks/useCityFromUrl.ts:54-55 | a parameter is parsed iff it is present and non-empty, and then it is the parsed string |
| CityFromUrl.UseCityFromUrl | src/hooks/useCityFromUrl.ts:49-62 | a returned city is a member of the list |
| CityFromUrl.UseCityFromUrlNeedsBoth | src/hooks/useCityFromUrl.ts:51-61 | an absent or empty `lat` or `lng` gives undefined |
| CityFromUrl.UseCityFromUrlLooksUp | src/hooks/useCityFromUrl.ts:54-59 | with both parameters non-empty, the result is the lookup on their parsed values |
| CityFromUrl.UseCityFromUrlNaN | src/hooks/useCityFromUrl.ts:54-59 | a parameter that parses to NaN gives undefined |
| CityFromUrl.UseCityFromUrlMatches | src/hooks/useCityFromUrl.ts:49-62 | a returned city means both parameters were non-empty and the city sits at their parsed values |
| UrlPosition.Validate | src/hooks/useUrlPosition.ts:9-32 | a pair is returned iff both strings are non-empty and parse to a latitude in [-90, 90] and a longitude in [-180, 180]; the pair is the parsed values, latitude first |
| UrlPosition.UseUrlPosition | src/hooks/useUrlPosition.ts:6-33 | any returned pair is finite and within range |
| UrlPosition.MissingParamRejected | src/hooks/useUrlPosition.ts:12-15 | a missing or empty string gives undefined |
| UrlPosition.NaNRejected | src/hooks/useUrlPosition.ts:21-24 | a string that parses to NaN gives undefined |
| UrlPosition.OutOfRangeRejected | src/hooks/useUrlPosition.ts:27-30 | a latitude below -90 or above 90, or a longitude below -180 or above 180, gives undefined |
| UrlPosition.BoundsAccepted | src/hooks/useUrlPosition.ts:27-32 | the bounds -90, 90, -180 and 180 are accepted and returned unmodified |
| FakeAuth.LoginAction | src/contexts/FakeAuthContext.tsx:60-64 | `login(email, password)` dispatches a login whose payload is exactly that email and password |
| FakeAuth.DoLogin | src/contexts/FakeAuthContext.tsx:23-28 | after login the user is authenticated and is the payload |
| FakeAuth.DoLogout | src/contexts/FakeAuthContext.tsx:30-35 | after logout the user is not authenticated and is null |
| FakeAuth.InitialAuthState | src/contexts/FakeAuthContext.tsx:14-17 | the initial state is unauthenticated with an empty email and password |
| FakeAuth.AuthReduce | src/contexts/FakeAuthContext.tsx:21-40 | the result is authenticated iff the action is login; login stores its payload as the user, logout stores null |
| FakeAuth.AuthReduceForgetsState | src/contexts/FakeAuthContext.tsx:21-36 | the state after an action does not depend on the state before it |
| FakeAuth.LogoutAbsorbs | src/contexts/FakeAuthContext.tsx:30-35 | logout is idempotent, and login then logout equals logout |

## Left out

- HTTP and JSON: `fetch`, the `Cache-Control` and `Content-Type` headers, the URLs and `res.json()`. Each request is an `Outcome` parameter. A non-2xx GET or POST whose body parses is a `Responded` outcome, as in the source, and its body is taken to be a `City`.
- The request arguments: `GetCity`'s `id` and `CreateCity`'s `newCity` only form the URL and the request body. Nothing ties the response to them, so a fetched city need not have the requested id and a created city need not equal the draft. The source has no such check either.
- `console.error` logging, which changes no state.
- React machinery: `useReducer`, `useCallback`/`useMemo` identity, the memoisation problem noted in the provider, and the context value object. The setters `setCurrentCity`, `setIsLoading` and `setCityData` (src/contexts/CityContext.tsx:222-228) are single dispatches, covered by `CityStore.Dispatch`.
- Concurrency: operations run one after another. Overlapping requests (last response wins) and the stale `state.cityData` / `state.currentCity` captured by the `createCity` and `deleteCity` callbacks are not modelled. In a sequential run the captured state is the current one.
- The reducer's `default` branch: the `Action` datatype admits no other action.
- Floating point: numbers are exact reals plus NaN and the two infinities. `parseFloat` is a parameter, not a parser.
- Query-string decoding: `SearchParams.Query` is already the decoded list of name/value pairs.
- ConvertToEmoji.Convert: covers ASCII input only (`AsciiChar`). Full Unicode `toUpperCase`, which can change the length, and UTF-16 surrogate splitting by `split('')` are not modelled. The result is a sequence of code points, not a UTF-16 string.
- `notes` is a plain string; the null case that the detail view tolerates is not modelled.
- `AuthProvider` passes `null` as its context value, so only the reducer and the two dispatching functions are modelled.
- Geocoding, geolocation, date formatting, random ids, media-query constants, UI components, routing and build tooling are outside the modelled logic.
