# Rick and Morty Adventure: a verified model of the client core

This project models the logic of an Angular client for a public Rick and Morty catalogue API, and of its mock account system. It proves properties of that model. Every network completion becomes an explicit method call on the component, which makes the core a set of single-threaded updates of sequences, maps and booleans. It covers these parts:

- **Mock account store** (`Auth`).
  - The user table is a field, and so is the session: a token, the stored user and the signals.
  - `register` validates in a fixed order, appends a record and logs in.
  - `login` finds a user by e-mail ignoring case, with two distinct errors.
  - `updateUser` pins the id and the e-mail.
  - Also modelled: `logout` and the role-to-page permission table.
- **Server-paginated list loader.**
  - `PagedLists.PagedList` holds the state machine the three list pages share: the page, the total pages, the accumulated items and the `loading`/`loadingMore`/`hasMore`/`error` flags.
  - `Characters`, `Locations` and `Episodes` add each page's request object and its error message.
  - Every load is split into a start step, a success step and an error step. The start step records the request it sends as a value.
- **ID-slice loader.**
  - `SliceLoading.SliceLoader` holds the IDs extracted from a record's URLs. Each step requests the next slice of at most six.
  - `CharacterDetails`, `LocationDetails` and `EpisodeDetails` wrap it.
- **API client** (`RickMortyApi`).
  - `buildParams` is a loop proved against a recursive specification.
  - Also modelled: the `{ page: 1, ...filters }` default, the single-record URLs and the search-term holder.
  - JavaScript objects are ordered entries with spread (`Js`).
- **Episode-rating client** (`Tmdb`).
  - The season cache is a `map`.
  - The `/S(\d+)E(\d+)/i` parser is modelled with the leftmost, greedy semantics of the regular expression.
  - Also modelled: the episode lookup and the rating colour and label bands.
- **Filter panels** (`Filters`, `LocationFilters`, `EpisodeFilters`): normalisation by `trim`, dropping blank values, the active-filter test, clearing and expanding.
- **Classifiers.**
  - `EpisodeCard`: season and episode numbers read from a code, and a season colour cycling with JavaScript's truncating `%`.
  - `LocationCard`: keyword-priority location-type icons and classes, case-insensitive via `toLowerCase`.
  - The episode detail page's `getSeasonNumber`, `getEpisodeNumber` and `getSeasonColor` are character-for-character copies of the episode card's. The same holds for the location detail page's `getTypeIcon` and the location card's. The model defines each once, and the detail modules import it.

`Text` and `Js` model the JavaScript semantics the core relies on:
- the `\s` white-space class and `trim`;
- `toLowerCase` on ASCII letters;
- `includes`;
- `split('/')`;
- `parseInt` of digit runs;
- `toString` of integers;
- unary `+`;
- truthiness (`x || undefined`, `x || 'User'`);
- the ordered object spread.

Behaviour of the code that the model keeps, and that a reader might not expect:
- **A continuation increments the page before its request.** `onScrollEnd` runs `currentPage++` and only then calls the page's load with `reset` false, which requests the incremented page (src/app/features/characters/characters.component.ts:112-117). A failed continuation therefore leaves the page incremented.
- **Every failed load sets `hasMore` to false.** This holds for a reset and for a continuation alike (src/app/features/characters/characters.component.ts:100-108).
- **A reset cancels nothing in flight.** Only the view's teardown through `destroy$` ends pending requests.
- **The character detail page has no `else` branch for an empty episode list.** A character without episodes leaves `hasMoreEpisodes` as it was (src/app/features/characters/character-details/character-details.component.ts:64-71). The location and episode detail pages set their flag to false in that case.
- **The character list loads page 1 twice on every visit.** The search-term subject is a `BehaviorSubject` (src/app/core/services/rick-morty-api.service.ts:37), so its current value reaches the debounced subscription about 400 ms after `ngOnInit` has already loaded without reset (src/app/features/characters/characters.component.ts:50-62). In the model this is `OnInit` followed by `OnSearchTerm` with the same term: a second request for page 1, with reset.
- **`Characters.ScrollThroughThreePages`** follows one query through its pages. When the pages hold 20, 20 and 5 characters, two scrolls give 45 characters on page 3 with no more pages, and a third scroll sends no request.

## Model

| member | source | states |
|---|---|---|
| Text.Trim | src/app/shared/components/filters/filters.component.ts:51-54 | `trim` yields the contiguous part of the input left after removing white space at both ends, and that part neither starts nor ends with white space |
| Text.TrimIdempotent | src/app/shared/components/filters/filters.component.ts:51-54 | trimming a trimmed value changes nothing |
| Text.TrimEmptyIffBlank | src/app/shared/components/filters/filters.component.ts:51-54 | a value trims to '' exactly when every character is white space |
| Text.TrimPlain | src/app/core/services/auth.service.ts:147 | a string without white space is its own trim |
| Text.ToLower | src/app/core/services/auth.service.ts:115-117 | `toLowerCase` keeps the length and maps every character through the ASCII letter mapping |
| Text.DigitRun | src/app/shared/components/episode-card/episode-card.component.ts:17 | `\d+` taken greedily: the run is all digits and is followed by the end or a non-digit |
| Text.NatToStringRoundTrip | src/app/core/services/rick-morty-api.service.ts:51 | `parseInt` undoes `toString` on non-negative integers |
| Text.CanonicalRoundTrip | src/app/features/characters/character-details/character-details.component.ts:65-68 | `toString` undoes `parseInt` on digit runs without leading zeros |
| Text.LastSegment | src/app/features/characters/character-details/character-details.component.ts:66-67 | the last element of `split('/')` is a suffix without '/', preceded by '/' unless it is the whole string |
| Text.ToLowerIdempotent | src/app/core/services/auth.service.ts:174-176 | lower-casing twice is lower-casing once, so comparing addresses by their lower-cased forms treats a stored lower-cased address like the typed one |
| Text.LastSegmentAfterSlash | src/app/features/characters/character-details/character-details.component.ts:66-67 | for `prefix/tail` with no '/' in `tail`, the last segment is `tail` |
| Js.Lookup | src/app/core/services/rick-morty-api.service.ts:45-51 | a property read finds a value exactly when some entry has that key |
| Js.LookupEntry | src/app/core/services/rick-morty-api.service.ts:45-51 | in an object with distinct keys, reading an entry's key gives that entry's value |
| Js.LookupAssign | src/app/core/services/rick-morty-api.service.ts:69 | after `o[k] = v`, `k` reads `v` and every other key reads as before |
| Js.LookupSpread | src/app/core/services/rick-morty-api.service.ts:69 | in `{...a, ...b}` a key reads from `b` when `b` has it, else from `a` |
| Js.SpreadKeepsUniqueKeys | src/app/core/services/rick-morty-api.service.ts:69 | spreading keeps keys distinct |
| Js.UnaryPlus | src/app/features/characters/character-details/character-details.component.ts:67 | unary `+` of a run of decimal digits is its decimal value |
| Js.Remainder | src/app/shared/components/episode-card/episode-card.component.ts:35 | `a % b` truncates: the result lies strictly between -b and b, takes the sign of `a`, and its magnitude is the remainder of the absolute values |
| RickMortyApi.KeptParamsSpec | src/app/core/services/rick-morty-api.service.ts:42-56 | a key is a parameter exactly when the object holds it with a value other than undefined, null or '', and it is sent as that value's string form |
| RickMortyApi.ListParamsSpec | src/app/core/services/rick-morty-api.service.ts:66-105 | list requests use page 1 when no `page` key is given and the caller's page otherwise; an explicit `page: undefined` removes the page; other keys are sent exactly when kept |
| RickMortyApi.EntryParam | src/app/core/services/rick-morty-api.service.ts:42-56 | an entry of an object with distinct keys is sent exactly when its value is kept, as that value's string form |
| RickMortyApi.PageEntry | src/app/core/services/rick-morty-api.service.ts:42-56 | an explicit `page: n` entry is sent as the string form of `n` |
| RickMortyApi.OptionalEntry | src/app/core/services/rick-morty-api.service.ts:42-56 | an entry `key: value or undefined` is sent exactly when `value` is a non-empty string, as that string |
| RickMortyApi.ParamKeysWithin | src/app/core/services/rick-morty-api.service.ts:42-69 | a list request sends no key besides `page` and the object's own keys |
| RickMortyApi.WithDefaultPageLookup | src/app/core/services/rick-morty-api.service.ts:69 | reading `{ page: 1, ...filters }`: the caller's value wins, and `page` falls back to 1 |
| RickMortyApi.RickMortyApiService.BuildParams | src/app/core/services/rick-morty-api.service.ts:42-56 | the key loop yields exactly the parameters of the specification `KeptParams` |
| RickMortyApi.RickMortyApiService.GetCharacters | src/app/core/services/rick-morty-api.service.ts:66-77 | the request goes to `<api>/character` with the parameters of `{ page: 1, ...filters }` |
| RickMortyApi.RickMortyApiService.GetLocations | src/app/core/services/rick-morty-api.service.ts:86-95 | the same for `<api>/location` |
| RickMortyApi.RickMortyApiService.GetEpisodes | src/app/core/services/rick-morty-api.service.ts:104-111 | the same for `<api>/episode` |
| RickMortyApi.IdSegment | src/app/core/services/rick-morty-api.service.ts:79-116 | the text of an ID placed after a '/' is the last segment of the URL |
| RickMortyApi.RickMortyApiService.GetCharacterById | src/app/core/services/rick-morty-api.service.ts:79-84 | a request without parameters whose URL starts with `<api>/character/` and ends in the ID's text (`NaN` for a non-numeric ID) |
| RickMortyApi.RickMortyApiService.GetLocationById | src/app/core/services/rick-morty-api.service.ts:97-102 | a request without parameters whose URL starts with `<api>/location/` and ends in the ID's text |
| RickMortyApi.RickMortyApiService.GetEpisodeById | src/app/core/services/rick-morty-api.service.ts:113-118 | a request without parameters whose URL starts with `<api>/episode/` and ends in the ID's text |
| RickMortyApi.RickMortyApiService.constructor | src/app/core/services/rick-morty-api.service.ts:33-40 | the search term starts as '' |
| RickMortyApi.RickMortyApiService.SetSearchTerm | src/app/core/services/rick-morty-api.service.ts:58-64 | `getSearchTerm` returns the last value set |
| RickMortyApi.RickMortyApiService.GetSearchTerm | src/app/core/services/rick-morty-api.service.ts:62-64 | the current value of the search-term subject: after `setSearchTerm(t)` it is `t`, and it starts as the empty string (see the constructor and `SetSearchTerm`) |
| Filters.TrimmedSpec | src/app/shared/components/filters/filters.component.ts:51-54 | a trimmed field is kept exactly when it has a non-white-space character, is kept as its trim, and trimming it again changes nothing |
| Filters.Normalized | src/app/shared/components/filters/filters.component.ts:46-57 | the object `onFilterChange` emits holds no empty status or gender, and its species and type are non-empty and already trimmed |
| Filters.NormalizedSpec | src/app/shared/components/filters/filters.component.ts:46-56 | status and gender are emitted unchanged and only when non-empty; species and type are emitted trimmed, and only when not blank |
| Filters.NormalizedIdempotent | src/app/shared/components/filters/filters.component.ts:46-56 | normalising an emitted set yields the same set |
| Filters.ActiveIffNonEmpty | src/app/shared/components/filters/filters.component.ts:46-80 | `hasActiveFilters` holds exactly when `onFilterChange` would emit a non-empty object |
| Filters.FiltersComponent.constructor | src/app/shared/components/filters/filters.component.ts:22-29 | all four fields start as '' and the panel is collapsed |
| Filters.FiltersComponent.OnFilterChange | src/app/shared/components/filters/filters.component.ts:46-57 | the field-by-field construction emits the normalised set |
| Filters.FiltersComponent.ClearFilters | src/app/shared/components/filters/filters.component.ts:59-67 | every field becomes '', {} is emitted, no filter is active, and the panel state is kept |
| Filters.FiltersComponent.ToggleExpanded | src/app/shared/components/filters/filters.component.ts:69-71 | `isExpanded` flips and the form is kept |
| Filters.FiltersComponent.HasActiveFilters | src/app/shared/components/filters/filters.component.ts:73-80 | the getter holds exactly when `onFilterChange` would emit a non-empty object |
| LocationFilters.NormalizedLocationSpec | src/app/shared/components/location-filters/location-filters.component.ts:27-36 | type and dimension are emitted trimmed, and only when not blank |
| LocationFilters.NormalizedLocation | src/app/shared/components/location-filters/location-filters.component.ts:27-36 | the emitted type and dimension are non-empty and already trimmed |
| LocationFilters.NormalizedLocationIdempotent | src/app/shared/components/location-filters/location-filters.component.ts:27-36 | normalisation is idempotent |
| LocationFilters.LocationActiveIffNonEmpty | src/app/shared/components/location-filters/location-filters.component.ts:27-52 | `hasActiveFilters` holds exactly when the emitted object is non-empty |
| LocationFilters.LocationFiltersComponent.constructor | src/app/shared/components/location-filters/location-filters.component.ts:20-25 | both fields start as '' and the panel is collapsed |
| LocationFilters.LocationFiltersComponent.OnFilterChange | src/app/shared/components/location-filters/location-filters.component.ts:27-36 | the construction emits the normalised set |
| LocationFilters.LocationFiltersComponent.ClearFilters | src/app/shared/components/location-filters/location-filters.component.ts:38-44 | both fields become '' and {} is emitted |
| LocationFilters.LocationFiltersComponent.ToggleExpanded | src/app/shared/components/location-filters/location-filters.component.ts:46-48 | only `isExpanded` flips |
| LocationFilters.LocationFiltersComponent.HasActiveFilters | src/app/shared/components/location-filters/location-filters.component.ts:50-52 | the getter holds exactly when `onFilterChange` would emit a non-empty object |
| EpisodeFilters.NormalizedEpisodeSpec | src/app/shared/components/episode-filters/episode-filters.component.ts:24-31 | the code is emitted trimmed, or {} when it is blank |
| EpisodeFilters.NormalizedEpisode | src/app/shared/components/episode-filters/episode-filters.component.ts:24-31 | the emitted episode code is non-empty and already trimmed |
| EpisodeFilters.NormalizedEpisodeIdempotent | src/app/shared/components/episode-filters/episode-filters.component.ts:24-31 | normalisation is idempotent |
| EpisodeFilters.EpisodeActiveIffNonEmpty | src/app/shared/components/episode-filters/episode-filters.component.ts:24-46 | `hasActiveFilters` holds exactly when the emitted object is non-empty |
| EpisodeFilters.EpisodeFiltersComponent.constructor | src/app/shared/components/episode-filters/episode-filters.component.ts:18-22 | the code starts as '' and the panel is collapsed |
| EpisodeFilters.EpisodeFiltersComponent.OnFilterChange | src/app/shared/components/episode-filters/episode-filters.component.ts:24-31 | the construction emits the normalised set |
| EpisodeFilters.EpisodeFiltersComponent.ClearFilters | src/app/shared/components/episode-filters/episode-filters.component.ts:33-38 | the code becomes '' and {} is emitted |
| EpisodeFilters.EpisodeFiltersComponent.ToggleExpanded | src/app/shared/components/episode-filters/episode-filters.component.ts:40-42 | only `isExpanded` flips |
| EpisodeFilters.EpisodeFiltersComponent.HasActiveFilters | src/app/shared/components/episode-filters/episode-filters.component.ts:44-46 | the getter holds exactly when `onFilterChange` would emit a non-empty object |
| PagedLists.PagedList.constructor | src/app/features/characters/characters.component.ts:34-44 | page 1 of 1, no items, no flags, more to come, no error |
| PagedLists.PagedList.Begin | src/app/features/characters/characters.component.ts:68-77 | a reset goes to page 1, empties the list and sets `loading`; a continuation sets only `loadingMore`; either clears the error |
| PagedLists.PagedList.Succeed | src/app/features/characters/characters.component.ts:90-98 | a reset replaces the list with the results, a continuation appends them; the page count is stored; `hasMore` is page < total; both flags clear |
| PagedLists.PagedList.Fail | src/app/features/characters/characters.component.ts:100-108 | the message is shown, both flags clear, `hasMore` becomes false, and the list and the page are kept |
| PagedLists.PagedList.Advance | src/app/features/characters/characters.component.ts:114 | the page rises by exactly 1 and nothing else changes |
| Characters.CharactersQueryParams | src/app/features/characters/characters.component.ts:79-87 | the request always carries the page; it carries the search term and each filter exactly when that value is a non-empty string, as that string, and nothing else |
| Characters.FilteredCharactersQuery | src/app/features/characters/characters.component.ts:79-87 | with the panel's emitted filters, species and type are sent trimmed and only when not blank |
| Characters.CharactersComponent.CurrentRequest | src/app/features/characters/characters.component.ts:79-87 | the request for the current state carries the current page, the search term exactly when it is non-empty, and no key outside the character query |
| Characters.CharactersComponent.constructor | src/app/features/characters/characters.component.ts:34-48 | an initial list, no filters and an empty term |
| Characters.CharactersComponent.LoadStart | src/app/features/characters/characters.component.ts:68-88 | the list begins a load and the request is the one for the current page, term and filters |
| Characters.CharactersComponent.LoadSuccess | src/app/features/characters/characters.component.ts:90-99 | the list takes in the response |
| Characters.CharactersComponent.LoadFailure | src/app/features/characters/characters.component.ts:100-108 | the list fails with the page's message |
| Characters.CharactersComponent.OnInit | src/app/features/characters/characters.component.ts:50-61 | the shared search term is read, and a non-reset load of the current page begins |
| Characters.CharactersComponent.OnSearchTerm | src/app/features/characters/characters.component.ts:55-58 | the new term is stored and a reset load begins |
| Characters.CharactersComponent.OnScrollEnd | src/app/features/characters/characters.component.ts:112-117 | nothing changes unless neither flag is set and `hasMore`; otherwise the page rises by 1 before the request for it |
| Characters.CharactersComponent.OnFiltersChange | src/app/features/characters/characters.component.ts:119-122 | the filters are stored and a reset load begins |
| Characters.ScrollThroughThreePages | src/app/features/characters/characters.component.ts:90-117 | pages of 20, 20 and 5 give 45 items, page 3 and no more pages, after which a further scroll sends nothing |
| Locations.LocationsQueryParams | src/app/features/locations/locations.component.ts:65-71 | the request carries the page, and carries name, type and dimension exactly when non-empty |
| Locations.LocationsComponent.CurrentRequest | src/app/features/locations/locations.component.ts:65-71 | the request for the current state carries the current page, the search term exactly when it is non-empty, and no key outside the location query |
| Locations.LocationsComponent.constructor | src/app/features/locations/locations.component.ts:30-43 | an initial list, no filters and an empty term |
| Locations.LocationsComponent.LoadStart | src/app/features/locations/locations.component.ts:54-72 | the list begins a load with the request for the current state |
| Locations.LocationsComponent.LoadSuccess | src/app/features/locations/locations.component.ts:74-83 | the list takes in the response |
| Locations.LocationsComponent.LoadFailure | src/app/features/locations/locations.component.ts:84-92 | the list fails with the page's message |
| Locations.LocationsComponent.OnInit | src/app/features/locations/locations.component.ts:45-47 | a non-reset load begins |
| Locations.LocationsComponent.OnSearch | src/app/features/locations/locations.component.ts:96-99 | the term is stored and a reset load begins |
| Locations.LocationsComponent.OnFiltersChange | src/app/features/locations/locations.component.ts:101-104 | the filters are stored and a reset load begins |
| Locations.LocationsComponent.OnScrollEnd | src/app/features/locations/locations.component.ts:106-111 | a no-op unless neither flag is set and `hasMore`; otherwise the page rises by 1 before the load |
| Episodes.EpisodesQueryParams | src/app/features/episodes/episodes.component.ts:65-70 | the request carries the page, and carries name and episode code exactly when non-empty |
| Episodes.EpisodesComponent.CurrentRequest | src/app/features/episodes/episodes.component.ts:65-70 | the request for the current state carries the current page, the search term exactly when it is non-empty, and no key outside the episode query |
| Episodes.EpisodesComponent.constructor | src/app/features/episodes/episodes.component.ts:30-43 | an initial list, no filters and an empty term |
| Episodes.EpisodesComponent.LoadStart | src/app/features/episodes/episodes.component.ts:54-71 | the list begins a load with the request for the current state |
| Episodes.EpisodesComponent.LoadSuccess | src/app/features/episodes/episodes.component.ts:73-82 | the list takes in the response |
| Episodes.EpisodesComponent.LoadFailure | src/app/features/episodes/episodes.component.ts:83-91 | the list fails with the page's message |
| Episodes.EpisodesComponent.OnInit | src/app/features/episodes/episodes.component.ts:45-47 | a non-reset load begins |
| Episodes.EpisodesComponent.OnSearch | src/app/features/episodes/episodes.component.ts:95-98 | the term is stored and a reset load begins |
| Episodes.EpisodesComponent.OnFiltersChange | src/app/features/episodes/episodes.component.ts:100-103 | the filters are stored and a reset load begins |
| Episodes.EpisodesComponent.OnScrollEnd | src/app/features/episodes/episodes.component.ts:105-110 | a no-op unless neither flag is set and `hasMore`; otherwise the page rises by 1 |
| SliceLoading.Slice | src/app/features/characters/character-details/character-details.component.ts:97-100 | the slice is `ids[index .. min(index + 6, n))` in order, and empty past the end |
| SliceLoading.SlicesCover | src/app/features/characters/character-details/character-details.component.ts:97-114 | successive slices from an index request every remaining ID exactly once, in order |
| SliceLoading.SliceExtendsPrefix | src/app/features/characters/character-details/character-details.component.ts:97-111 | the IDs loaded so far followed by the next slice are the IDs loaded after one more step |
| SliceLoading.ExtractIds | src/app/features/characters/character-details/character-details.component.ts:65-68 | one ID per URL, in order: element i is the ID extracted from URL i |
| SliceLoading.ExtractId | src/app/features/characters/character-details/character-details.component.ts:66-67 | unary `+` of the last '/'-segment; a segment of decimal digits gives its value |
| SliceLoading.ExtractIdOfLink | src/app/features/characters/character-details/character-details.component.ts:65-68 | a URL ending in '/' and digits yields the value of the digits |
| SliceLoading.SliceLoader.constructor | src/app/features/characters/character-details/character-details.component.ts:18-26 | no IDs, index 0, nothing loaded, no flags, more to come |
| SliceLoading.SliceLoader.SetIds | src/app/features/characters/character-details/character-details.component.ts:65 | only the ID list changes |
| SliceLoading.SliceLoader.MarkExhausted | src/app/features/locations/location-details/location-details.component.ts:71-73 | only `hasMore` changes, to false |
| SliceLoading.SliceLoader.Start | src/app/features/characters/character-details/character-details.component.ts:83-104 | past the end `hasMore` becomes false and nothing is requested; otherwise index 0 sets the first-load flag and later steps the more flag, and the step requests the next slice |
| SliceLoading.SliceLoader.Succeed | src/app/features/characters/character-details/character-details.component.ts:106-119 | the results are appended, the index rises by 6, `hasMore` is index < n, both flags clear, and the list length stays min(index, n) when each slice delivers one record per ID |
| SliceLoading.SliceLoader.Fail | src/app/features/characters/character-details/character-details.component.ts:120-124 | only the two flags change, to clear |
| SliceLoading.LoadEightInTwoSteps | src/app/features/characters/character-details/character-details.component.ts:83-126 | eight IDs load as six and then two; then there is nothing more, and a further step requests nothing |
| CharacterDetails.CharacterDetailsComponent.constructor | src/app/features/characters/character-details/character-details.component.ts:17-34 | no character, `loading` true, no error, an initial slice loader |
| CharacterDetails.CharacterDetailsComponent.OnInit | src/app/features/characters/character-details/character-details.component.ts:36-45 | a present, non-empty route ID is converted with unary `+` and requested; otherwise the invalid-ID error is shown and `loading` clears |
| CharacterDetails.CharacterDetailsComponent.LoadCharacterStart | src/app/features/characters/character-details/character-details.component.ts:52-57 | `loading` is set, the error cleared, and `<api>/character/<id>` requested |
| CharacterDetails.CharacterDetailsComponent.LoadCharacterSuccess | src/app/features/characters/character-details/character-details.component.ts:60-72 | the character is shown; with episodes, their IDs are extracted and the first step begins; without, nothing is requested and the loader is untouched |
| CharacterDetails.CharacterDetailsComponent.LoadCharacterFailure | src/app/features/characters/character-details/character-details.component.ts:73-79 | the page's message is shown and `loading` clears |
| CharacterDetails.CharacterDetailsComponent.LoadNextEpisodes | src/app/features/characters/character-details/character-details.component.ts:83-104 | the loader starts a step, and one `<api>/episode/<id>` request is made per ID of the slice, in order |
| CharacterDetails.CharacterDetailsComponent.EpisodesSuccess | src/app/features/characters/character-details/character-details.component.ts:107-119 | the loader joins the results |
| CharacterDetails.CharacterDetailsComponent.EpisodesFailure | src/app/features/characters/character-details/character-details.component.ts:120-124 | the loader drops the step |
| CharacterDetails.CharacterDetailsComponent.OnEpisodesScrollEnd | src/app/features/characters/character-details/character-details.component.ts:128-136 | a step starts only when neither flag is set and more is offered |
| CharacterDetails.EpisodeLinkRoundTrip | src/app/features/characters/character-details/character-details.component.ts:65-104 | the request for an ID extracted from `<api>/episode/<digits>` goes to that same link |
| LocationDetails.LocationDetailsComponent.constructor | src/app/features/locations/location-details/location-details.component.ts:17-34 | no location, `loading` true, no error, an initial slice loader |
| LocationDetails.LocationDetailsComponent.OnInit | src/app/features/locations/location-details/location-details.component.ts:36-45 | a present, non-empty route ID is requested; otherwise the invalid-ID error is shown |
| LocationDetails.LocationDetailsComponent.LoadLocationStart | src/app/features/locations/location-details/location-details.component.ts:52-57 | `loading` is set, the error cleared, and `<api>/location/<id>` requested |
| LocationDetails.LocationDetailsComponent.LoadLocationSuccess | src/app/features/locations/location-details/location-details.component.ts:60-74 | the location is shown; with residents, `totalResidents` is their number and the first step begins; without, `hasMoreResidents` becomes false and nothing is requested |
| LocationDetails.LocationDetailsComponent.LoadLocationFailure | src/app/features/locations/location-details/location-details.component.ts:75-81 | the page's message is shown and `loading` clears |
| LocationDetails.LocationDetailsComponent.LoadNextResidents | src/app/features/locations/location-details/location-details.component.ts:85-106 | the loader starts a step, and one `<api>/character/<id>` request is made per ID of the slice |
| LocationDetails.LocationDetailsComponent.ResidentsSuccess | src/app/features/locations/location-details/location-details.component.ts:109-121 | the loader joins the results |
| LocationDetails.LocationDetailsComponent.ResidentsFailure | src/app/features/locations/location-details/location-details.component.ts:122-126 | the loader drops the step |
| LocationDetails.LocationDetailsComponent.OnResidentsScrollEnd | src/app/features/locations/location-details/location-details.component.ts:130-138 | a step starts only when neither flag is set and more is offered |
| LocationDetails.ResidentLinkRoundTrip | src/app/features/locations/location-details/location-details.component.ts:65-106 | the request for an ID extracted from `<api>/character/<digits>` goes to that link |
| EpisodeDetails.EpisodeDetailsComponent.constructor | src/app/features/episodes/episode-details/episode-details.component.ts:17-34 | no episode, `loading` true, no error, an initial slice loader |
| EpisodeDetails.EpisodeDetailsComponent.OnInit | src/app/features/episodes/episode-details/episode-details.component.ts:36-45 | a present, non-empty route ID is requested; otherwise the invalid-ID error is shown |
| EpisodeDetails.EpisodeDetailsComponent.LoadEpisodeStart | src/app/features/episodes/episode-details/episode-details.component.ts:52-57 | `loading` is set, the error cleared, and `<api>/episode/<id>` requested |
| EpisodeDetails.EpisodeDetailsComponent.LoadEpisodeSuccess | src/app/features/episodes/episode-details/episode-details.component.ts:60-74 | the episode is shown; with characters, the first step begins; without, `hasMoreCharacters` becomes false |
| EpisodeDetails.EpisodeDetailsComponent.LoadEpisodeFailure | src/app/features/episodes/episode-details/episode-details.component.ts:75-81 | the page's message is shown and `loading` clears |
| EpisodeDetails.EpisodeDetailsComponent.LoadNextCharacters | src/app/features/episodes/episode-details/episode-details.component.ts:85-106 | the loader starts a step, and one `<api>/character/<id>` request is made per ID of the slice |
| EpisodeDetails.EpisodeDetailsComponent.CharactersSuccess | src/app/features/episodes/episode-details/episode-details.component.ts:109-121 | the loader joins the results |
| EpisodeDetails.EpisodeDetailsComponent.CharactersFailure | src/app/features/episodes/episode-details/episode-details.component.ts:122-126 | the loader drops the step |
| EpisodeDetails.EpisodeDetailsComponent.OnCharactersScrollEnd | src/app/features/episodes/episode-details/episode-details.component.ts:130-138 | a step starts only when neither flag is set and more is offered |
| EpisodeDetails.CharacterLinkRoundTrip | src/app/features/episodes/episode-details/episode-details.component.ts:65-106 | the request for an ID extracted from `<api>/character/<digits>` goes to that link |
| EpisodeCard.FindTag | src/app/shared/components/episode-card/episode-card.component.ts:17-22 | the leftmost position where the letter is followed by a digit, or none when there is no such position |
| EpisodeCard.NumberAfterTag | src/app/shared/components/episode-card/episode-card.component.ts:16-24 | `match(/<tag>(\d+)/)` then `parseInt`: 1 when no tag letter is followed by a digit (`NumberAfterTagAt` gives the value at a match) |
| EpisodeCard.GetSeasonNumber | src/app/shared/components/episode-card/episode-card.component.ts:16-19 | 1 when no 'S' is followed by a digit; `StandardCode` gives the value for `S<d1>E<d2>` |
| EpisodeCard.GetEpisodeNumber | src/app/shared/components/episode-card/episode-card.component.ts:21-24 | 1 when no 'E' is followed by a digit; `StandardCode` gives the value for `S<d1>E<d2>` |
| EpisodeCard.NumberAfterTagAt | src/app/shared/components/episode-card/episode-card.component.ts:16-24 | at the leftmost match, the number read is the value of the whole digit run after the letter |
| EpisodeCard.StandardCode | src/app/shared/components/episode-card/episode-card.component.ts:16-24 | `S<d1>E<d2>` gives season `d1` and episode `d2` |
| EpisodeCard.S02E07 | src/app/shared/components/episode-card/episode-card.component.ts:16-24 | 'S02E07' is season 2, episode 7 |
| EpisodeCard.LowerCaseCode | src/app/shared/components/episode-card/episode-card.component.ts:17-22 | the patterns are case-sensitive: 's01e02' falls back to 1 and 1 |
| EpisodeCard.GetSeasonColor | src/app/shared/components/episode-card/episode-card.component.ts:26-36 | for season ≥ 1, colour `(season - 1) mod 6` of the six; below 1, undefined unless `season - 1` is a multiple of 6, then the first colour |
| EpisodeCard.SeasonColorPeriod | src/app/shared/components/episode-card/episode-card.component.ts:26-36 | seasons s and s + 6 share a colour |
| EpisodeCard.SeasonColorsDistinct | src/app/shared/components/episode-card/episode-card.component.ts:26-36 | the first six seasons get six different colours |
| LocationCard.TypeCategory | src/app/shared/components/location-card/location-card.component.ts:17-25 | the position of the first keyword the lower-cased type contains, or 5 when it contains none |
| LocationCard.GetTypeIcon | src/app/shared/components/location-card/location-card.component.ts:16-26 | always one of the six icons; keyword j's icon exactly when the type contains keyword j and no earlier one; 'bi-geo-alt-fill' exactly when it contains none |
| LocationCard.GetTypeClass | src/app/features/locations/location-details/location-details.component.ts:156-166 | the same classification onto the six style classes, 'type-default' exactly when no keyword matches |
| LocationCard.TypeCaseInsensitive | src/app/shared/components/location-card/location-card.component.ts:17 | types that differ only in letter case get the same icon and class |
| LocationCard.PlanetFirst | src/app/shared/components/location-card/location-card.component.ts:19 | any type containing "planet" in any case is a planet, whatever else it contains |
| LocationCard.SpaceExample | src/app/shared/components/location-card/location-card.component.ts:21 | "Space" gets the stars icon |
| Tmdb.TmdbService.constructor | src/app/core/services/tmdb.service.ts:15-17 | an empty cache and no loading |
| Tmdb.TmdbService.SeasonUrl | src/app/core/services/tmdb.service.ts:30 | the season endpoint `<base>/tv/60625/season/<n>`; `Tmdb.CacheScenario` fixes the text for season 2 |
| Tmdb.TmdbService.GetSeasonDetails | src/app/core/services/tmdb.service.ts:21-31 | a cached season is returned at once without a request; otherwise loading is set and `<base>/tv/60625/season/<n>` is requested; the cache is unchanged |
| Tmdb.TmdbService.SeasonFetched | src/app/core/services/tmdb.service.ts:33-36 | the result is cached under its season number and delivered, and loading clears |
| Tmdb.TmdbService.SeasonFetchFailed | src/app/core/services/tmdb.service.ts:37-41 | null is delivered and the cache is left as it was |
| Tmdb.TmdbService.GetEpisodeDetails | src/app/core/services/tmdb.service.ts:45-60 | the season lookup, with the episode picked from a season at hand |
| Tmdb.TmdbService.ClearCache | src/app/core/services/tmdb.service.ts:91-93 | the cache becomes empty |
| Tmdb.CacheScenario | src/app/core/services/tmdb.service.ts:21-93 | a fetched season answers the next lookup without a request, and after `clearCache` it is requested again |
| Tmdb.FindEpisode | src/app/core/services/tmdb.service.ts:53-55 | the first episode with the number, or none exactly when no episode has it |
| Tmdb.EpisodeFromSeason | src/app/core/services/tmdb.service.ts:50-58 | null for a null season; otherwise the first episode of that season with that number, as `find` picks it, or null when none has it |
| Tmdb.FindCode | src/app/core/services/tmdb.service.ts:66 | the leftmost position of a match of `/S(\d+)E(\d+)/i` |
| Tmdb.ParseEpisodeCode | src/app/core/services/tmdb.service.ts:62-74 | null exactly when no substring matches; otherwise the numbers of the leftmost match |
| Tmdb.ParseStandardCode | src/app/core/services/tmdb.service.ts:62-74 | a season letter, digits, an episode letter and digits, in either case, parse to the values of the digits |
| Tmdb.CardAgreesWithParser | src/app/core/services/tmdb.service.ts:62-74 | for upper-case codes the card's numbers and the parser's agree |
| Tmdb.LowerCaseCodeDisagrees | src/app/core/services/tmdb.service.ts:66 | the parser reads 's01e02' as 1 and 2, where the card reads episode 1 |
| Tmdb.LowerCaseCodeParsed | src/app/core/services/tmdb.service.ts:66-72 | the rating service's parser, which ignores letter case, reads season 1 and episode 2 from 's01e02' |
| Tmdb.GetRatingLabel | src/app/core/services/tmdb.service.ts:82-89 | the label is the band the rating falls in: Poor below 5, then Average, Good, Great and Excellent from 5, 6, 7 and 8, and Masterpiece from 9 |
| Tmdb.RatingLabelMonotonic | src/app/core/services/tmdb.service.ts:82-89 | a higher rating never gets a lower label |
| Tmdb.GetRatingColor | src/app/core/services/tmdb.service.ts:76-80 | green exactly from 8, yellow exactly in [6, 8), red exactly below 6 |
| Tmdb.ColorFollowsLabel | src/app/core/services/tmdb.service.ts:76-89 | green for the top two labels, yellow for the next two, red otherwise |
| Auth.ValidEmailIff | src/app/core/services/auth.service.ts:296-299 | accepted exactly when there is no white space and exactly one '@', something comes before it, and a '.' after it is neither the first nor the last character after the '@' |
| Auth.ValidEmailShape | src/app/core/services/auth.service.ts:296-299 | an address the regex accepts has no white space, a single '@' after a non-empty start, and a '.' strictly inside the part after it |
| Auth.ValidEmailFromShape | src/app/core/services/auth.service.ts:296-299 | an address of that shape is accepted by the regex |
| Auth.IsValidEmail | src/app/core/services/auth.service.ts:296-299 | the address regex as three non-empty parts without white space or '@', split by an '@' and a later '.'; `ValidEmailIff` gives its structural description in both directions |
| Auth.ValidEmailStoredLowerCase | src/app/core/services/auth.service.ts:147 | for an accepted address, the stored lower-cased trimmed form is its lower-cased form |
| Auth.FindByEmail | src/app/core/services/auth.service.ts:174-176 | the first record whose address equals the given one ignoring case; none exactly when the duplicate check of `register` finds none |
| Auth.FindById | src/app/core/services/auth.service.ts:264 | the first record with the id, or none exactly when no record has it |
| Auth.RegisterErrorOrder | src/app/core/services/auth.service.ts:113-142 | duplicate address, then short trimmed name, then bad format, then short password; the first failing check decides, and only credentials passing all four are accepted |
| Auth.RegisterError | src/app/core/services/auth.service.ts:113-142 | no error only when the address is free, the trimmed name has three characters, the address is well formed and the password has six; any error is one of those four |
| Auth.NewRecord | src/app/core/services/auth.service.ts:144-155 | the appended record has the next id, the given password and trimmed name, the initials avatar exactly when no avatar is given, and the given role or else a non-empty default |
| Auth.RegisteredUserIsFound | src/app/core/services/auth.service.ts:144-186 | after an accepted registration, a login with the same address finds exactly the new record, and its password matches |
| Auth.RegisterKeepsEmailsDistinct | src/app/core/services/auth.service.ts:113-157 | registration keeps the addresses of the table distinct ignoring case |
| Auth.Patched | src/app/core/services/auth.service.ts:257-262 | the id and address are the current ones whatever the patch holds; every other field is the patch's when present |
| Auth.UpdateRecord | src/app/core/services/auth.service.ts:264-268 | only the first record with the id changes, to the new user with its old password; without such a record the table is unchanged |
| Auth.PermissionTable | src/app/core/services/auth.service.ts:319-331 | Visitor may open characters and profile, Student adds episodes, Scientist and Agent add locations, and the default role 'User' may open nothing |
| Auth.PermissionsNested | src/app/core/services/auth.service.ts:323-328 | every page Visitor may open Student may open, and every page Student may open Scientist may open |
| Auth.Allows | src/app/core/services/auth.service.ts:319-331 | the corrected permission test: only the four known pages can be allowed, and a role may open the character list exactly when the table lists it |
| Auth.AccessAsWritten | src/app/core/services/auth.service.ts:319-331 | the permission test as written: every listed role gets an answer, and it throws exactly for unlisted roles that name an inherited `Object.prototype` member |
| Auth.InheritedRoleThrows | src/app/core/services/auth.service.ts:330 | as written, role "toString" makes the check throw, while the corrected check answers false |
| Auth.AllowsAgreesWhereAnswered | src/app/core/services/auth.service.ts:319-331 | the corrected check is false for unlisted roles and agrees with the written one wherever that one does not throw; it throws exactly for inherited names |
| Auth.AuthService.constructor | src/app/core/services/auth.service.ts:73-108 | the status starts from whether a token is present; the session is restored when a token and a user are stored; an empty table gets the default record |
| Auth.AuthService.CheckAuthStatus | src/app/core/services/auth.service.ts:99-108 | with a token and a stored user, the session opens with that user; otherwise nothing changes |
| Auth.AuthService.InitializeUsersDatabase | src/app/core/services/auth.service.ts:84-97 | an empty table becomes the single default record; a non-empty one is kept |
| Auth.AuthService.PerformLogin | src/app/core/services/auth.service.ts:200-209 | a token for the address and the password-free user are stored, and the session is open |
| Auth.AuthService.Register | src/app/core/services/auth.service.ts:110-167 | the first failing check is reported and nothing changes; otherwise exactly one record is appended (id = old length + 1, trimmed name, lower-cased trimmed address, given or initials avatar, given role or 'User') and its user is signed in |
| Auth.AuthService.Login | src/app/core/services/auth.service.ts:169-198 | an unknown address and a wrong password are distinct errors that change nothing; otherwise the first match's user is signed in and the table is kept |
| Auth.AuthService.Logout | src/app/core/services/auth.service.ts:211-220 | token and stored user are removed, the session is closed, and the table is kept |
| Auth.AuthService.UpdateUser | src/app/core/services/auth.service.ts:246-278 | without a user it fails and nothing changes; otherwise the patched user replaces the session user and the record with its id, and the token is kept |
| Auth.AuthService.HasToken | src/app/core/services/auth.service.ts:230-232 | `hasToken` (and `isAuthenticatedSync`, lines 315-317): true exactly when a token is present and, if read back from storage, non-empty; so an issued token gives true and an empty stored token false |
| Auth.AuthService.HasAccessTo | src/app/core/services/auth.service.ts:319-331 | false with nobody signed in; for a signed-in user, exactly what `Allows` grants the role (so a Visitor may open 'profile' and a Scientist 'locations', by `Auth.PermissionTable`), and nothing for the role 'User' |
| Auth.DefaultAddressFound | src/app/core/services/auth.service.ts:174-176 | the default address typed in another case is found at the head of the seeded table |
| Auth.DefaultAccountScenario | src/app/core/services/auth.service.ts:84-331 | on a fresh store the default account refuses a wrong password, accepts 'portal123' with the address in another case, may open locations, and cannot be registered again |

## Left out

- **Network and timing.**
  - HTTP calls, RxJS observables, `forkJoin`, and teardown through `takeUntil(destroy$)` are not modelled. Each response is a parameter of a completion method, and a slice's join is all-or-nothing.
  - The `setTimeout` delays of the account operations are not modelled; those operations are synchronous here.
  - The `debounceTime`/`distinctUntilChanged` pipe on the search term is not modelled; each value that reaches the page is one `OnSearchTerm` call.
  - The time-based search bar component is not part of this model.
- **Response order.** No property is stated about the order in which responses arrive. A reset may start while a continuation is in flight, and either may complete first.
- **Local storage.**
  - Local storage and JSON are plain fields. Unparsable stored data reads as absent or empty.
  - Token: the fake JWT (`btoa`, `Date.now`) is abstracted to a token value that records the address it was issued for.
- **Avatar URL.** The generated avatar URL (`encodeURIComponent`) is abstracted to `Initials(name)`.
- **Console logging.** The `console.error` calls of the failed-load handlers of the list pages, the detail pages and the rating client are not modelled; they change no state the pages show.
- **API loading signal.** The API client's `loading` signal is not modelled: each page keeps its own flags for what is shown.
- **Auth.UserPatch: partial patches.** A patch key that is present with the value `undefined` is not modelled. In JavaScript it would overwrite the field with `undefined`; here every patch field is either present with a value or absent.
- **Text.ToLower: ASCII only.** It lower-cases only ASCII letters. JavaScript's full Unicode case mapping is not modelled.
- **Unicode lengths.** Strings are sequences of code points, not UTF-16 code units. A `length` check on text outside the Basic Multilingual Plane can therefore differ.
- **Js.UnaryPlus: digit runs only.** Its contract is weaker than the source's conversion: it states the value only for decimal-digit runs. Signs, exponents, hexadecimal and fractional text, and `Infinity`, all become NaN here (so a route ID "Infinity" requests `.../NaN` rather than `.../Infinity`), and numbers beyond 2^53 are exact integers rather than rounded doubles.
- **EpisodeCard.NumberAfterTag: exact `parseInt`.** It reads a digit run as an exact integer. JavaScript's `parseInt` rounds a run beyond 2^53 to the nearest double. The same holds for `Tmdb.CodeNumbers`, which reads the two groups of the rating service's code pattern.
- **Text.NatToString: no exponent form.** It always writes plain decimal digits. JavaScript's `toString` writes numbers of 1e21 and above in exponent form, and doubles beyond 2^53 are rounded first.
- **RickMortyApi.ListParams: unordered parameters.** It gives the query parameters as a map, so the order in which `HttpParams` writes them into the URL is not modelled. The server does not depend on that order.
- **Tmdb.GetRatingLabel and Tmdb.GetRatingColor take a `real`.** NaN and floating-point rounding of the rating are not modelled.
- **Tmdb.TmdbService.GetSeasonDetails: query string.** The `api_key` query parameter is not part of the modelled request, because it is a configuration secret.
- **EpisodeCard.GetSeasonColor: undefined.** It returns an `Option`. `None` stands for the `undefined` that indexing with a negative remainder yields.
- **View glue.** These are not part of this model:
  - the router, `goBack` and route guards;
  - the status class and icon maps;
  - the role colour and icon tables of the forms;
  - the login and profile form glue;
  - the infinite-scroll directive (IntersectionObserver);
  - the landing page's `countUp`;
  - the not-found page's random message;
  - the header, sidebar, layout and loading skeleton.
- **Models.** src/app/core/models (the API record shapes) is not part of this model. `Models` declares only the fields the modelled code reads.
- **Account accessors.**
  - `getAvailableRoles` returns a constant list.
  - `getToken` and `isAuthenticatedSync` are covered by the token field and by `HasToken`.

## Findings

| source | as written | input that shows it | evidently intended | confidence | as-written member | corrected member |
|---|---|---|---|---|---|---|
| src/app/core/services/auth.service.ts:330 | the permission check reads the role's page list from an object literal, calls `includes` on it through optional chaining and falls back to false, but a role naming an inherited `Object.prototype` member finds a function with no `includes`, and the call throws a TypeError | a signed-in user whose role is "toString" (also "constructor", "valueOf", "__proto__" and the rest); the registration and profile forms only offer listed roles, so such a role reaches the check through stored data or a direct call | an unlisted role may open no page, and the check answers false | not executed; medium, since the forms do not offer such roles | Auth.AccessAsWritten, shown by Auth.InheritedRoleThrows | Auth.Allows, proved by Auth.AllowsAgreesWhereAnswered and used by Auth.AuthService.HasAccessTo |
