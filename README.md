# Event search: a Dafny model of its stateful and mapping core

The application lets a user search ticketed events near a location, open one event's detail
view (with the headline artist's music-provider profile and albums), and keep a list of
favorite events. An Express backend proxies the ticketing provider (search, event details,
keyword suggestions) and the music provider (artist lookup, artist, albums), and keeps
favorites in memory. A React frontend holds the search form, the keyword autocomplete, the
detail view, two variants of the favorites hook and a one-slot search-state context.

This project models the parts of that code that compute or keep state:

- the backend favorites store: a class over a sequence, with list, upsert by id and delete by id
  (`favorites_route.dfy`);
- the backend events and music routers: required-parameter checks, forwarding, and
  error-to-status mapping (`events_route.dfy`, `spotify_route.dfy`);
- the ticketing client's API-key lookup, query construction and soft-failing suggest
  (`ticketmaster_service.dfy`), and the music client's access-token cache with its 5-second
  safety margin (`spotify_service.dfy`);
- the optimistic favorites provider, a class over a map with explicit failure and Undo steps
  (`favorites_mirror.dfy`), and the non-optimistic list hook (`favorites_list.dfy`);
- the keyword autocomplete's `minChars` gate, suggestion merge, `dedupeByName` loop and clear
  button (`keyword_autocomplete.dfy`);
- the artist pane's candidate names, first-resolving name search, album de-duplication and
  header defaults (`artist_pane.dfy`);
- the detail view's event summary, genre path, status label and badge, and artists line
  (`event_detail.dfy`);
- the search page's segment ids, validation, request parameters and result mapping
  (`search_page.dfy`);
- the search-state cell mirrored into session storage (`search_context.dfy`).

Shared pieces live in `common.dfy`. It holds JavaScript's `undefined`/`null` as `Option`,
a thrown error or failed request as `Outcome.Fail`, the truthiness of a string, ASCII
`trim`/`toLowerCase`, `filter(Boolean)` and `join`. `first_occurrence.dfy` holds the
first-occurrence filter that specifies both de-duplication loops, with its properties.
`provider.dfy` holds the ticketing provider's payload shapes and the optional chains read
from them.

Every remote call is a parameter of the operation that makes it. So are the clock, the
environment variables and the success of each session-storage write: an `Outcome` that either
carries the data or fails. Asynchronous continuations (a backend failure arriving later, the
Undo click) are separate method calls made in sequence.

## Model

| member | source | states |
|---|---|---|
| FavoritesRoute.FavoritesStore.constructor | backend/src/routes/favorites.ts:7 | the store starts empty, with every id present and unique |
| FavoritesRoute.FavoritesStore.List | backend/src/routes/favorites.ts:9-11 | GET / replies 200 with the stored records as they are |
| FavoritesRoute.FavoritesStore.Post | backend/src/routes/favorites.ts:13-19 | a body without a truthy id gets 400 "id required" and the store is unchanged; otherwise 201 echoes the body, the store becomes the upsert, and the id-uniqueness invariant is kept |
| FavoritesRoute.FavoritesStore.Delete | backend/src/routes/favorites.ts:21-25 | 204 always; every record with the id goes and the invariant is kept |
| FavoritesRoute.WithoutId | backend/src/routes/favorites.ts:23 | no remaining record has the id, every remaining record was stored, and removing an absent id changes nothing |
| FavoritesRoute.WithoutIdSubsequence | backend/src/routes/favorites.ts:23 | removal keeps the other records in their relative order |
| FavoritesRoute.WithoutIdKeepsOthers | backend/src/routes/favorites.ts:23 | the records carrying any other id are exactly the same before and after removal |
| FavoritesRoute.WithoutIdCount | backend/src/routes/favorites.ts:23 | exactly the records carrying the id are removed |
| FavoritesRoute.WithoutIdIdempotent | backend/src/routes/favorites.ts:21-25 | deleting twice is deleting once |
| FavoritesRoute.WithoutIdAppend | backend/src/routes/favorites.ts:23 | removal distributes over concatenation |
| FavoritesRoute.WithoutIdKeepsUnique | backend/src/routes/favorites.ts:23 | removal keeps every id present and unique |
| FavoritesRoute.UpsertExactlyOne | backend/src/routes/favorites.ts:17 | after an upsert exactly one record carries the id: the last, which is the body |
| FavoritesRoute.UpsertKeepsOthers | backend/src/routes/favorites.ts:17 | everything before the new last record is the old store without that id, and records with other ids are unchanged in order |
| FavoritesRoute.WithIdAppend | backend/src/routes/favorites.ts:17 | selecting by id distributes over concatenation |
| FavoritesRoute.UpsertKeepsUnique | backend/src/routes/favorites.ts:15-17 | with unique ids before, and a body with an id, ids are unique after |
| FavoritesRoute.UpsertIdempotent | backend/src/routes/favorites.ts:17 | upserting the same record twice leaves the store as upserting it once |
| FavoritesRoute.UpsertReplaces | backend/src/routes/favorites.ts:17 | a second upsert with the same id replaces the first record entirely |
| FavoritesRoute.Upsert | backend/src/routes/favorites.ts:17 | the filter-then-append of POST, characterised by the `FavoritesRoute.Upsert*` lemmas |
| OptimisticFavorites.LastIndex | frontend/src/hooks/useFavorites.tsx:34-36 | the index of the last element with a given id, -1 when there is none |
| OptimisticFavorites.MapOfHoldsLast | frontend/src/hooks/useFavorites.tsx:32-37 | the loaded map has a key exactly for the listed ids and holds under each the last element with that id |
| OptimisticFavorites.BuildMap | frontend/src/hooks/useFavorites.tsx:33-36 | the load loop computes that map |
| OptimisticFavorites.MapOf | frontend/src/hooks/useFavorites.tsx:33-36 | the map the load builds, characterised by `OptimisticFavorites.MapOfHoldsLast` |
| OptimisticFavorites.FavoritesMirror.IsFavorite | frontend/src/hooks/useFavorites.tsx:45 | `isFavorite`: the id is a key of the map |
| OptimisticFavorites.FavoritesMirror.constructor | frontend/src/hooks/useFavorites.tsx:25 | the provider starts with an empty map, no notices, no requests |
| OptimisticFavorites.FavoritesMirror.Load | frontend/src/hooks/useFavorites.tsx:28-43 | a response (a missing body read as the empty list) replaces the map; a failure keeps it and raises the load-failure notice |
| OptimisticFavorites.FavoritesMirror.Toggle | frontend/src/hooks/useFavorites.tsx:47-111 | chosen from the map at call time: an add stores the event under its id, notifies and posts it; a removal deletes only that id, offers Undo, sends the delete and remembers the stored entry |
| OptimisticFavorites.FavoritesMirror.ReAdd | frontend/src/hooks/useFavorites.tsx:83-94 | the stored entry (not the toggle argument) is put back and posted; the "re-added" notice only when asked |
| OptimisticFavorites.FavoritesMirror.Fail | frontend/src/hooks/useFavorites.tsx:59-68 | a failed add deletes the id again with an error notice; a failed delete re-adds without the "re-added" notice |
| OptimisticFavorites.FavoritesMirror.Undo | frontend/src/hooks/useFavorites.tsx:97-102 | Undo re-adds the stored entry with the "re-added" notice |
| OptimisticFavorites.FavoritesMirror.ReAddPostFailed | frontend/src/hooks/useFavorites.tsx:86-89 | a failed re-add post only raises a notice; the map keeps the entry |
| OptimisticFavorites.ToggleThenFail | frontend/src/hooks/useFavorites.tsx:47-111 | toggling and then having the backend call fail restores the loaded map and `isFavorite` |
| OptimisticFavorites.RemoveThenRestore | frontend/src/hooks/useFavorites.tsx:74-110 | removing and then Undo or a failed delete restores the map; the "re-added" notice appears exactly on Undo |
| OptimisticFavorites.AddThenFail | frontend/src/hooks/useFavorites.tsx:51-68 | an add makes the event a favorite and a failed post makes it not one again |
| FavoritesList.RecordRoundTrip | frontend/src/hooks/useFavorites.ts:23-31 | the add body reads back as the same event and a loaded record maps back to itself; the body's `eventId` is the event's id |
| FavoritesList.FromRecord | frontend/src/hooks/useFavorites.ts:23-31 | the load mapping of one record, inverse to `FavoritesList.ToRecord` by `FavoritesList.RecordRoundTrip` |
| FavoritesList.ToRecord | frontend/src/hooks/useFavorites.ts:55-63 | the add body of one event |
| FavoritesList.Mapped | frontend/src/hooks/useFavorites.ts:23-31 | one event per record, in order, with `id` taken from `eventId` |
| FavoritesList.WithoutEvent | frontend/src/hooks/useFavorites.ts:52 | no remaining event has the id; every other event stays |
| FavoritesList.WithoutEventAppend | frontend/src/hooks/useFavorites.ts:52 | removal keeps the other events in order |
| FavoritesList.FavoritesHook.constructor | frontend/src/hooks/useFavorites.ts:13-14 | the hook starts with an empty list, not loading |
| FavoritesList.FavoritesHook.Load | frontend/src/hooks/useFavorites.ts:16-42 | the mapped records replace the list; a failure keeps it; loading ends either way |
| FavoritesList.FavoritesHook.Toggle | frontend/src/hooks/useFavorites.ts:47-70 | a favorite is deleted, anything else posted with its record body; the list changes only after success (removed, or the event put first); a failure alerts and changes nothing |
| FavoritesList.ToggleFlips | frontend/src/hooks/useFavorites.ts:44-70 | a successful toggle flips `isFavorite`, a failed one leaves it |
| SpotifyService.TokenCache.constructor | backend/src/services/spotify.ts:6-7 | no token is cached at start-up |
| SpotifyService.TokenCache.GetAccessToken | backend/src/services/spotify.ts:9-30 | a usable cached token is returned without an exchange; missing credentials fail before any exchange; an exchange failure propagates; a successful exchange caches the token with expiry `now + expires_in * 1000`; only that changes the cache, and a returned token is the cached one |
| SpotifyService.TokenCache.Sget | backend/src/services/spotify.ts:32-40 | a usable cached token sends the GET with `Bearer <cached token>`; otherwise missing credentials or a failed exchange propagate their error with no request, and a successful exchange sends the GET with the new token and caches it with its expiry; the response is returned as it came and the cache changes only by that exchange |
| SpotifyService.FirstCallExchanges | backend/src/services/spotify.ts:6-11 | with credentials, the first call always exchanges |
| SpotifyService.RefreshWindow | backend/src/services/spotify.ts:11-29 | two calls inside the window return the same token with one exchange; a call at or after `expiresAt - 5000` exchanges again |
| SpotifyService.ArtistRequests | backend/src/services/spotify.ts:42-59 | the artist search, artist and albums requests carry their paths and parameters (`limit` 1; albums and singles, US market, `limit` 24) and, inside one validity window, the same bearer token from a single exchange |
| TicketmasterService.GetApiKey | backend/src/services/ticketmaster.ts:5-11 | the key when set and non-empty, the fixed error otherwise |
| TicketmasterService.SearchQuery | backend/src/services/ticketmaster.ts:33-41 | the events URL with `unit` "miles", the key, keyword and radius unchanged, and `segmentId` exactly when it is truthy |
| TicketmasterService.SearchEvents | backend/src/services/ticketmaster.ts:22-45 | a missing key fails before sending; otherwise the query is sent and its outcome, failure included, propagates |
| TicketmasterService.GetEventDetails | backend/src/services/ticketmaster.ts:12-20 | the same propagation, for the event's own URL |
| TicketmasterService.SuggestKeywords | backend/src/services/ticketmaster.ts:47-65 | success returns the payload unchanged; a missing key or any request failure returns the empty embedded shape |
| EventsRoute.ForwardedArgs | backend/src/routes/events.ts:15-21 | keyword and radius forwarded unchanged; the segment exactly when present and non-empty |
| EventsRoute.Search | backend/src/routes/events.ts:7-28 | a missing or empty required parameter gives 400 with no provider call; otherwise the provider data with 200, or 500 with a fixed message on any client failure |
| EventsRoute.Details | backend/src/routes/events.ts:30-39 | the event data with 200, or 500 with a fixed message |
| EventsRoute.SearchForwards | backend/src/routes/events.ts:15-21 | a complete search sends unit "miles", the keyword and radius as given, and `segmentId` exactly when one was given |
| SpotifyRoute.ErrorMessage | backend/src/routes/spotify.ts:15 | the error's message, or the fallback when it is empty |
| SpotifyRoute.Lookup | backend/src/routes/spotify.ts:7-17 | a blank name gives 400 and no lookup; otherwise the trimmed name is looked up and the reply is the first item or null with 200, or 500 with the error's message |
| SpotifyRoute.PassThrough | backend/src/routes/spotify.ts:20-37 | the data with 200, or 500 with the error's message, or the fallback when that message is empty |
| SpotifyRoute.Artist | backend/src/routes/spotify.ts:20-27 | the artist data with 200, or 500 with the error's message, or "spotify artist failed" when it is empty; the error text is never empty |
| SpotifyRoute.Albums | backend/src/routes/spotify.ts:30-37 | the albums data with 200, or 500 with the error's message, or "spotify albums failed" when it is empty; the error text is never empty |
| SpotifyRoute.LookupIgnoresPadding | backend/src/routes/spotify.ts:9-11 | any whitespace before and after a name without outer whitespace is removed, and exactly that name is looked up |
| SpotifyRoute.LookupName | backend/src/routes/spotify.ts:9 | the query name: the trimmed text of the parameter, "" when it is absent or empty; its meaning is stated by `SpotifyRoute.LookupIgnoresPadding` and `Common.TrimEmptyIffBlank` |
| KeywordAutocomplete.DedupeByName | frontend/src/components/KeywordAutocomplete.tsx:144-155 | the loop computes the first-occurrence filter by lower-cased name |
| KeywordAutocomplete.Deduped | frontend/src/components/KeywordAutocomplete.tsx:144-155 | the specification of `dedupeByName`: the first-occurrence filter by lower-cased name, characterised by `KeywordAutocomplete.DedupedProperties` |
| KeywordAutocomplete.DedupedProperties | frontend/src/components/KeywordAutocomplete.tsx:144-155 | the output is a subsequence of the input, no two outputs share a lower-cased name, every input item has an output item with its lower-cased name, and each output is the first input with its name |
| KeywordAutocomplete.Named | frontend/src/components/KeywordAutocomplete.tsx:47-52 | only entries with a non-empty name are kept, each as its id and name |
| KeywordAutocomplete.NamedIsFilter | frontend/src/components/KeywordAutocomplete.tsx:47-52 | an entry gives its id and name exactly when its name is non-empty, and the result for a concatenation is the concatenation of the results, so order and multiplicity are kept |
| KeywordAutocomplete.Merge | frontend/src/components/KeywordAutocomplete.tsx:54 | the de-duplicated attractions and venues cut to 10, characterised by `KeywordAutocomplete.MergeProperties` |
| KeywordAutocomplete.MergeProperties | frontend/src/components/KeywordAutocomplete.tsx:47-54 | at most 10 items, none with an empty name; the de-duplicated attractions come first, then the venues whose names no attraction has |
| KeywordAutocomplete.BelowMinChars | frontend/src/components/KeywordAutocomplete.tsx:35 | the gate: an empty query, or one shorter than `minChars` UTF-16 code units once trimmed |
| KeywordAutocomplete.FetchSuggest | frontend/src/components/KeywordAutocomplete.tsx:33-62 | a short query clears the list without a request; a failed request clears it; a successful one shows the merge of the payload's attractions and venues (each `?? []`), at most 10 items with non-empty names |
| KeywordAutocomplete.EmptyShapeShowsNothing | frontend/src/components/KeywordAutocomplete.tsx:44-55 | the backend's empty soft-fail shape yields no suggestions |
| KeywordAutocomplete.ShortQueriesSendNothing | frontend/src/components/KeywordAutocomplete.tsx:35 | with the default of 2, a blank query or a single character of the Basic Multilingual Plane sends nothing |
| KeywordAutocomplete.AstralCharSends | frontend/src/components/KeywordAutocomplete.tsx:35 | with the default of 2, a single character above the Basic Multilingual Plane is two code units and does send a request |
| KeywordAutocomplete.ShowClear | frontend/src/components/KeywordAutocomplete.tsx:78 | the clear-button predicate |
| KeywordAutocomplete.ShowClearIffNotBlank | frontend/src/components/KeywordAutocomplete.tsx:78 | the button shows exactly for a non-blank value while not loading |
| ArtistPane.CandidateNames | frontend/src/components/ArtistPane.tsx:19 | the preferred name (when non-empty) then the non-empty fallbacks in order; no empty name |
| ArtistPane.Stop | frontend/src/components/ArtistPane.tsx:20-24 | the search stops at the first name whose lookup fails or finds an artist; all before it found nothing |
| ArtistPane.Resolution | frontend/src/components/ArtistPane.tsx:20-25 | what the name search settles on: the lookup outcome at the stop, or no artist; characterised by `ArtistPane.ResolutionCharacterised` |
| ArtistPane.Tried | frontend/src/components/ArtistPane.tsx:21-22 | the names looked up: every name up to and including the stop |
| ArtistPane.PreferredNameWins | frontend/src/components/ArtistPane.tsx:19-24 | a resolving preferred name is the only one looked up, and its artist is chosen |
| ArtistPane.ResolutionCharacterised | frontend/src/components/ArtistPane.tsx:20-26 | no artist exactly when every lookup finds nothing (then all were tried); a found artist comes from the last name tried, after names that all found nothing |
| ArtistPane.DedupeAlbums | frontend/src/components/ArtistPane.tsx:34-40 | the filter with its `seen` set computes the first-occurrence filter by `name|release_date` |
| ArtistPane.AlbumKey | frontend/src/components/ArtistPane.tsx:36 | the album key: name, "\|", release date |
| ArtistPane.DedupedAlbums | frontend/src/components/ArtistPane.tsx:34-40 | the specification of the album filter, characterised by `ArtistPane.DedupedAlbumsProperties` |
| ArtistPane.DedupedAlbumsProperties | frontend/src/components/ArtistPane.tsx:34-40 | kept albums are a subsequence, no two share a key, every fetched album has a kept album with its key, the first album with a key wins |
| ArtistPane.Header | frontend/src/components/ArtistPane.tsx:51-53 | followers and popularity default to 0; at most the first 6 genres, all of them when fewer |
| ArtistPane.ArtistPaneView.constructor | frontend/src/components/ArtistPane.tsx:10-12 | a fresh pane is loading with nothing shown |
| ArtistPane.ArtistPaneView.TryNames | frontend/src/components/ArtistPane.tsx:17-44 | names are tried up to the first that resolves; none resolving sets a null artist with no album fetch; a resolved one is replaced by the full artist and the de-duplicated albums; a rejected call leaves the pane loading |
| EventDetail.ToSummary | frontend/src/pages/EventDetailPage.tsx:53-70 | id and name copied; genre the non-empty segment name or "N/A"; image the first image, else the seatmap, else ""; date, time and venue default to "" |
| EventDetail.GenrePathShape | frontend/src/pages/EventDetailPage.tsx:84-90 | "" exactly when there is no first classification or all three names are empty; all three present are joined in order by ", " |
| EventDetail.GenrePath | frontend/src/pages/EventDetailPage.tsx:84-90 | `genrePath`, characterised by `EventDetail.GenrePathShape` |
| EventDetail.SpaceBeforeCapsProperties | frontend/src/pages/EventDetailPage.tsx:231 | the replacement adds one space per capital, every capital is preceded by a space, and removing those spaces gives back the code |
| EventDetail.SpaceBeforeCaps | frontend/src/pages/EventDetailPage.tsx:231 | the `replace(/([A-Z])/g, " $1")` step, characterised by `EventDetail.SpaceBeforeCapsProperties` |
| EventDetail.StatusLabel | frontend/src/pages/EventDetailPage.tsx:231 | the label neither starts nor ends with whitespace |
| EventDetail.LowerCaseStatusUnchanged | frontend/src/pages/EventDetailPage.tsx:231 | a code without capitals or outer whitespace is shown as it is |
| EventDetail.StatusLabelExample | frontend/src/pages/EventDetailPage.tsx:231 | "onSale" is shown as "on Sale" |
| EventDetail.StatusLabelLeadingCapital | frontend/src/pages/EventDetailPage.tsx:231 | the space before a leading capital is trimmed away |
| EventDetail.SecondaryBadgeIgnoresCase | frontend/src/pages/EventDetailPage.tsx:229 | the badge choice depends only on the lower-cased code |
| EventDetail.SecondaryBadgeExamples | frontend/src/pages/EventDetailPage.tsx:229 | "onsale", "OnSale", "On Sale" are secondary; "offsale" and "onsale " are not |
| EventDetail.SecondaryBadge | frontend/src/pages/EventDetailPage.tsx:229 | the badge variant test on the lower-cased code |
| EventDetail.StatusBadge | frontend/src/pages/EventDetailPage.tsx:122-233 | no badge exactly without a non-empty code; otherwise the label and the badge choice |
| EventDetail.Names | frontend/src/pages/EventDetailPage.tsx:120 | one name per attraction, in order |
| EventDetail.ArtistsLineShape | frontend/src/pages/EventDetailPage.tsx:115-120 | the line has every name once with ", " between each two; one more attraction appends ", " and its name |
| EventDetail.ArtistsLine | frontend/src/pages/EventDetailPage.tsx:115-120 | the attraction names joined by ", ", characterised by `EventDetail.ArtistsLineShape` |
| EventDetail.Loaded | frontend/src/pages/EventDetailPage.tsx:100-112 | a fetched event replaces the shown one; a failure keeps the previous |
| SearchPage.GetSegmentIdDomain | frontend/src/pages/SearchPage.tsx:8-23 | exactly the five named categories map to a segment id, each non-empty |
| SearchPage.GetSegmentIdInjective | frontend/src/pages/SearchPage.tsx:8-23 | no two categories share a segment id |
| SearchPage.GetSegmentId | frontend/src/pages/SearchPage.tsx:8-23 | `getSegmentId`, characterised by `SearchPage.GetSegmentIdDomain` and `SearchPage.GetSegmentIdInjective` |
| SearchPage.Validate | frontend/src/pages/SearchPage.tsx:65-72 | the alert that stops a submission, characterised by `SearchPage.ValidateMeaning` |
| SearchPage.ValidateMeaning | frontend/src/pages/SearchPage.tsx:65-72 | the keyword alert exactly for a blank keyword; the location alert exactly for a blank location with auto-detect off; the search goes ahead otherwise |
| SearchPage.Params | frontend/src/pages/SearchPage.tsx:83-92 | the keyword as typed, `distance` or "10" when empty, the coordinates, and a segment id exactly when the category maps to one |
| SearchPage.MapEvent | frontend/src/pages/SearchPage.tsx:95-103 | one result's summary; the genre falls back to "N/A" only when the segment name is absent |
| SearchPage.MapEvents | frontend/src/pages/SearchPage.tsx:94-103 | one summary per provider event, in order; no data gives no results |
| SearchPage.SummariesAgree | frontend/src/pages/SearchPage.tsx:95-103 | the search and detail summaries agree except for an empty segment name and the seatmap fallback |
| SearchPage.AsBackendQuery | frontend/src/pages/SearchPage.tsx:84-91 | the request as the backend's /search handler receives it |
| SearchPage.ValidSubmissionPassesBackend | frontend/src/pages/SearchPage.tsx:65-92 | a valid submission always passes the backend's required-parameter check, and the category's segment id is forwarded |
| SearchPage.SearchForm.constructor | frontend/src/pages/SearchPage.tsx:51-57 | the initial form: category "All", distance "10", auto-detect on, no results |
| SearchPage.SearchForm.ToggleAutoDetect | frontend/src/pages/SearchPage.tsx:59-61 | turning auto-detect on clears the location |
| SearchPage.SearchForm.HandleSearch | frontend/src/pages/SearchPage.tsx:63-111 | a validation alert stops with nothing sent; otherwise the trimmed location is geocoded when auto-detect is off, and the search runs |
| SearchPage.SearchForm.Search | frontend/src/pages/SearchPage.tsx:74-110 | the results are cleared; a failed coordinates lookup or request shows the fetch alert with no results; success shows the mapped results; loading ends |
| SearchPage.FirstSearch | frontend/src/pages/SearchPage.tsx:51-103 | from the initial form a keyword search sends radius "10" and no segment, and shows the mapped results |
| SearchPage.BlankKeyword | frontend/src/pages/SearchPage.tsx:65-68 | a blank keyword sends nothing and raises the keyword alert |
| SearchContext.SearchStateCell.constructor | frontend/src/context/SearchContext.tsx:33 | the state starts null whatever storage holds |
| SearchContext.SearchStateCell.Mount | frontend/src/context/SearchContext.tsx:36-47 | a parseable entry becomes the state and is removed; an unparseable one is ignored and kept |
| SearchContext.SearchStateCell.Save | frontend/src/context/SearchContext.tsx:49-57 | the state is set even when the storage write fails |
| SearchContext.SearchStateCell.Clear | frontend/src/context/SearchContext.tsx:59-66 | the state becomes null and the entry is removed |
| SearchContext.SearchStateCell.Consume | frontend/src/context/SearchContext.tsx:68-77 | returns the current state, then leaves it null and the entry removed |
| SearchContext.SaveThenConsume | frontend/src/context/SearchContext.tsx:49-77 | save then consume returns the saved state; a second consume returns null |
| SearchContext.RestoreAfterReload | frontend/src/context/SearchContext.tsx:36-57 | a saved state is restored once after a reload and not after a second |
| SearchContext.UnparseableIgnored | frontend/src/context/SearchContext.tsx:38-45 | unparseable text stays in storage and the state stays null |
| Common.Trim | backend/src/routes/spotify.ts:9 | `trim` returns the slice without outer whitespace, all of whose dropped characters are whitespace |
| Common.Utf16Length | frontend/src/components/KeywordAutocomplete.tsx:35 | `.length` counts UTF-16 code units: between one and two per character, and exactly one per character when none lies above the Basic Multilingual Plane |
| Common.TrimEmptyIffBlank | frontend/src/pages/SearchPage.tsx:65 | a string trims to "" exactly when it is blank |
| Common.TrimStartSkips | backend/src/routes/spotify.ts:9 | leading whitespace does not change where `trim` starts |
| Common.TrimEndSkips | backend/src/routes/spotify.ts:9 | trailing whitespace does not change where `trim` ends |
| Common.TrimPadded | backend/src/routes/spotify.ts:9 | any whitespace around a text without outer whitespace is exactly what `trim` removes |
| Common.TrimUnpadded | frontend/src/pages/EventDetailPage.tsx:231 | trimming a string without outer whitespace changes nothing |
| Common.ToLower | frontend/src/components/KeywordAutocomplete.tsx:148 | same length, each letter lowered, no capital left |
| Common.ToLowerIdempotent | frontend/src/components/KeywordAutocomplete.tsx:148 | lowering twice is lowering once |
| Common.NonEmpty | frontend/src/pages/EventDetailPage.tsx:89 | `filter(Boolean)` keeps only non-empty parts, each of them, and nothing else |
| Common.NonEmptyIsFilter | frontend/src/pages/EventDetailPage.tsx:89 | a single part is kept exactly when non-empty, and the result for a concatenation is the concatenation of the results, so order and multiplicity are kept |
| Common.JoinLength | frontend/src/pages/EventDetailPage.tsx:120 | the joined text is the parts plus one separator between each two |
| Common.JoinSnoc | frontend/src/pages/EventDetailPage.tsx:120 | one more part appends the separator and the part |
| FirstOccurrence.KeepFirstStep | frontend/src/components/KeywordAutocomplete.tsx:147-152 | one loop step advances the de-duplication invariant |
| FirstOccurrence.KeepFirstSubsequence | frontend/src/components/KeywordAutocomplete.tsx:144-155 | the first-occurrence filter returns a subsequence |
| FirstOccurrence.KeepFirstDistinct | frontend/src/components/KeywordAutocomplete.tsx:148-151 | its keys are distinct and new |
| FirstOccurrence.KeepFirstKeys | frontend/src/components/KeywordAutocomplete.tsx:147-152 | every input key not already seen is represented |
| FirstOccurrence.KeepFirstRepresents | frontend/src/components/KeywordAutocomplete.tsx:147-152 | every input element has a kept element with its key |
| FirstOccurrence.KeepFirstIsFirst | frontend/src/components/KeywordAutocomplete.tsx:147-152 | each kept element is the first input element with its key |
| FirstOccurrence.KeepFirstConcat | frontend/src/components/KeywordAutocomplete.tsx:54 | filtering a concatenation filters the second part against the first part's keys |

## Left out

- HTTP and cloud I/O: the axios and fetch calls, the IP and geocoding lookups (including the
  default location used when the IP service gives none), secret loading, the database
  connection and schema, and server bootstrapping. Every remote result is a parameter.
- The backend's server mounts only the events router, and no suggest route exists; the
  favorites and music routers and `suggestKeywords` are modelled as the handlers are written,
  as if they were mounted.
- Coordinates: `Number(...)` parsing, the floating-point text of `latlong` and the numbers the
  frontend sends are not modelled; coordinates are carried as opaque text.
- Date and locale formatting (`fmtDateTime`, `formatBadgeDate`, follower counts) and the
  price text built with `toFixed`.
- Timers, effects and concurrency: the debounce, the `active` cancellation flags, the
  outside-click listener, and interleavings of overlapping toggles. Asynchronous
  continuations are sequential method calls. `consumeSearchState` reads the state current at
  the call, not a stale closure.
- Toasts and alerts are a log of notices; their presentation is not modelled.
- `String.prototype.trim` and `toLowerCase` are modelled on ASCII only (space, tab, line
  feed, vertical tab, form feed, carriage return; letters A to Z); Unicode whitespace and
  case folding are not.
- JSON serialisation of the search state: a storage entry is the state itself or
  unparseable text.
- Error shapes: an axios or Express error is its message only; the 429 branch of the suggest
  call is not distinguished from other failures because both return the same shape.
- SpotifyRoute.Lookup: assumes the search payload's `artists` object is present (the route
  would throw on a missing one and reply 500). The route's `|| null` turns a falsy first item
  into null; artist items are objects and never falsy, so that case is not modelled and any
  first item is returned.
- ArtistPane.AlbumKey: album names and release dates are assumed present; a missing field,
  which the source renders as "undefined" in the key, is not modelled.
- Favorite records: the store holds an optional string id and string fields; a body whose
  `id` or other fields are numbers, objects or other JavaScript values (for which, with the
  strict `!==`, DELETE `/5` does not remove a record posted with `id: 5`) is not modelled.
- Query values: every /search parameter and the /lookup `name` parameter is at most one
  string; Express's array values for a repeated parameter, which `String(...)` joins with
  commas (backend/src/routes/events.ts and backend/src/routes/spotify.ts:9), are not modelled.
- The optimistic provider's map is a plain key-value map; the inherited properties of the
  JavaScript object it indexes (for which `isFavorite("constructor")` holds on an empty map)
  are not modelled.
- Rendering: JSX markup, the favorites page's display normalisation, avatar and links.
