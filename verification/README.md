# Pokédex gallery: pager, batch fetch and ability tooltip

This project models the logic under the markup of a small Pokédex browser UI.

The gallery shows one page of ten Pokémon at a time. The zero-based `page` gives the first id, `startId = page * 10 + 1`. The Previous and Next buttons move the page. The `usePaginatedPokemon(startId, count)` hook fetches the ids `startId .. startId + count - 1` as one batch. Either every record is published in request order, or one error message is set and the previous list stays. Clicking an ability name opens a tooltip with the ability's English short effect. Clicking the same name again closes it, and so does the tooltip's close button.

Modules:

- `Wrappers`: `Option` for the component's nullable values, and JavaScript truthiness of a nullable string.
- `Decimal`: how an integer id is written into the batch error message.
- `PaginatedPokemon`: the hook. The class `ListState` holds `pokemonList`, `loading`, `error` and the dependencies of the last render. Its methods are the render-time effect decision and the steps of `fetchBatch`.
- `PokemonGallery`: the component. The class `Gallery` holds `page` and the three tooltip state variables. Its methods are the Previous/Next handlers, `handleAbilityClick` and the close button. The click handler is split at its `await`: `BeginAbilityClick` runs up to the fetch and `SettleAbilityClick` runs when it settles, so the state rendered while a fetch is pending is part of the model. Each tooltip handler is specified by a pure transition on a `TooltipState` value (`BeginClick`, `SettleClick`, `Click`, `Close`). The lemmas state the component's behaviour about those transitions, including any interleaving of clicks, settling fetches and closes.

Inputs that stand in for the browser and the network:

- each batch request's outcome is a `Response`: `Ok(record)`, `NotOk` (HTTP status not ok), or `Rejected(message)` (network failure or a body that is not JSON);
- the ability-detail fetch is an `AbilityFetch`: `Loaded(entries)` or `LoadFailed`;
- the clicked element's box is a `Rect`, and the scroll offset is a `real` parameter.

Behaviour of the code worth noting:

- A failed ability fetch does not open a closed tooltip. Only `abilityEffect` and `tooltipPosition` change, and `activeAbility` keeps its old value (`ClickFailedKeepsActive`). A tooltip that is already open for another ability then shows "Failed to load effect." at the new anchor, while that other ability stays the active one.
- While an ability fetch is pending, an open tooltip shows the previous ability's text at the newly clicked element (`PendingShownAsBefore`).
- A failed batch keeps the previous `pokemonList`, and the error is shown beside it (`ListState.SettleBatch`).
- The effect text also falls back to "No effect found." when the English entry's `short_effect` is empty (`EffectText`).
- The ability URL is fetched as given.

## Model

| member | source | states |
|---|---|---|
| `Decimal.NatToString` | src/usePaginatedPokemon.tsx:32 | the id in the error text is a non-empty run of decimal digits with no leading zero |
| `Decimal.NatToStringValue` | src/usePaginatedPokemon.tsx:32 | the digits written for an id read back as that id |
| `Decimal.IntToString` | src/usePaginatedPokemon.tsx:32 | `${startId + i}`: a leading '-' exactly for negative ids, then digits that read back as the id's magnitude |
| `Decimal.IntToStringInjective` | src/usePaginatedPokemon.tsx:32 | distinct ids are written as distinct strings |
| `PaginatedPokemon.BatchLength` | src/usePaginatedPokemon.tsx:28 | `{ length: count }` gives max(count, 0) elements: count itself, or 0 for a negative count |
| `PaginatedPokemon.RequestedIds` | src/usePaginatedPokemon.tsx:28-29 | the batch makes max(count, 0) requests, and request i is for id startId + i |
| `PaginatedPokemon.RequestedIdsRange` | src/usePaginatedPokemon.tsx:28-29 | an id is requested if and only if startId <= id < startId + count |
| `PaginatedPokemon.RequestedIdsDistinct` | src/usePaginatedPokemon.tsx:28-29 | no id is requested twice in one batch |
| `PaginatedPokemon.FailureMessage` | src/usePaginatedPokemon.tsx:31-32 | a non-ok response fails with "Failed to fetch Pokémon ID " followed by the id as text; a rejection keeps its own message, which `catch` stores at line 39-40 |
| `PaginatedPokemon.NotOkMessageNamesId` | src/usePaginatedPokemon.tsx:31-32 | two non-ok failure messages are equal only for the same id, so the message identifies the failing id |
| `PaginatedPokemon.Records` | src/usePaginatedPokemon.tsx:37-38 | when every response is ok, the list has one record per request, in request order |
| `PaginatedPokemon.EffectDue` | src/usePaginatedPokemon.tsx:47 | a batch starts exactly when there was no earlier render or startId or count differs from it |
| `PaginatedPokemon.ListState.constructor` | src/usePaginatedPokemon.tsx:19-21 | initial state: empty list, loading true, no error |
| `PaginatedPokemon.ListState.Render` | src/usePaginatedPokemon.tsx:46-47 | the effect runs exactly when EffectDue holds, and the new dependencies are recorded |
| `PaginatedPokemon.ListState.StartBatch` | src/usePaginatedPokemon.tsx:25-29 | before any request completes: loading is true, the error is cleared, the list is untouched, and exactly the RequestedIds are requested |
| `PaginatedPokemon.ListState.SettleBatch` | src/usePaginatedPokemon.tsx:37-43 | all ok: the list becomes the records in request order; otherwise the list is unchanged and the error is the failure of one of the failed requests; loading is false in both outcomes |
| `PaginatedPokemon.ListState.FetchBatch` | src/usePaginatedPokemon.tsx:24-44 | the whole batch: it requests exactly RequestedIds, one per response; on success no error and pokemonList[i] is the record fetched for ids[i]; on failure no partial list and the error names a failed request; loading false at the end |
| `PokemonGallery.StartId` | src/PokemonGallery.tsx:6 | the first id is positive exactly for a non-negative page, and the page is recovered from it as (id - 1) / 10 with no remainder |
| `PokemonGallery.PageRequestsItsTenIds` | src/PokemonGallery.tsx:6-7 | a page p >= 0 requests exactly the ids p*10+1 .. p*10+10, and all of them are positive |
| `PokemonGallery.PageOfId` | src/PokemonGallery.tsx:6-7 | every positive id appears on exactly one page, (id - 1) / 10 |
| `PokemonGallery.PageChangeTriggersBatch` | src/PokemonGallery.tsx:5-7 | the batch reruns if and only if the page has changed since the last render |
| `PokemonGallery.FindEnglish` | src/PokemonGallery.tsx:36-38 | the result is the index of the first entry whose language name is "en", or none when no entry is English |
| `PokemonGallery.EffectText` | src/PokemonGallery.tsx:36-40 | the effect is the first English entry's non-empty short effect, otherwise "No effect found."; it is never empty |
| `PokemonGallery.Anchor` | src/PokemonGallery.tsx:30-31 | the anchor is equidistant from the element's left and right edges, on its bottom edge |
| `PokemonGallery.Shown` | src/PokemonGallery.tsx:55 | a shown tooltip has an active ability with a non-empty name and is coherent; without an active ability, a position or a text it is never shown |
| `PokemonGallery.Placement` | src/PokemonGallery.tsx:58-61 | the tooltip's left edge is half its width left of the anchor, and its top is the gap below the anchor after the scroll offset |
| `PokemonGallery.PlacementUnderAnchor` | src/PokemonGallery.tsx:58-61 | the tooltip sits at top = bottom + scrollY + 8 and left = centre - 128, so it is centred horizontally under the clicked element |
| `PokemonGallery.BeginClick` | src/PokemonGallery.tsx:24-31 | up to the `await`: on the active ability, ability and effect are cleared and the position kept; otherwise only the position moves to the anchor; coherence is kept |
| `PokemonGallery.SettleClick` | src/PokemonGallery.tsx:34-43 | after the fetch: on success the clicked ability becomes active with its EffectText; on failure only the text becomes "Failed to load effect."; the position never changes; coherence is kept when a position is set |
| `PokemonGallery.Click` | src/PokemonGallery.tsx:17-44 | the whole handler: the position is the anchor exactly when a fetch is made, and coherence is kept |
| `PokemonGallery.Close` | src/PokemonGallery.tsx:65 | the close button hides the tooltip and leaves the effect text and the position as they were |
| `PokemonGallery.ClickActiveCloses` | src/PokemonGallery.tsx:24-28 | clicking the active ability clears the ability and the effect, keeps the position, hides the tooltip and fetches nothing |
| `PokemonGallery.ClickOtherAnchors` | src/PokemonGallery.tsx:30-31 | clicking any other ability fetches, and the position becomes the middle of the element's bottom edge whatever the fetch outcome |
| `PokemonGallery.PendingShownAsBefore` | src/PokemonGallery.tsx:30-34 | while the fetch is pending only the anchor has moved, so the tooltip is shown exactly when it was shown before the click, with the previous text |
| `PokemonGallery.ClickLoadedShows` | src/PokemonGallery.tsx:34-40 | after a successful fetch the clicked ability is active with its EffectText at the new position, and the tooltip is shown if and only if the name is non-empty |
| `PokemonGallery.ClickFailedKeepsActive` | src/PokemonGallery.tsx:41-43 | after a failed fetch only the effect ("Failed to load effect.") and the position change; the tooltip is shown if and only if an ability was already active |
| `PokemonGallery.OvergrowScenario` | src/PokemonGallery.tsx:24-40 | clicking "overgrow" with an English entry shows exactly that entry's text; a second click closes it without a fetch |
| `PokemonGallery.StepKeepsSessionOk` | src/PokemonGallery.tsx:17-44 | every click, settling fetch and close keeps the tooltip coherent (an active ability has an effect and a position, an effect is never empty) and keeps an anchor in place while a fetch is in flight |
| `PokemonGallery.RunKeepsSessionOk` | src/PokemonGallery.tsx:17-44 | any interleaving of clicks, settling fetches and closes from a good state ends in a good state |
| `PokemonGallery.ShownIffActive` | src/PokemonGallery.tsx:55 | in every reachable state the tooltip is shown exactly when an ability with a non-empty name is active |
| `PokemonGallery.SettledAtOnceIsClick` | src/PokemonGallery.tsx:17-44 | a click whose fetch settles before any other event has exactly the effect of Click and leaves no fetch in flight |
| `PokemonGallery.Gallery.constructor` | src/PokemonGallery.tsx:5-15 | initial state: page 0, no active ability, no effect, no position, and a fresh hook state |
| `PokemonGallery.Gallery.PreviousDisabled` | src/PokemonGallery.tsx:127 | the Previous button is disabled exactly on the page that starts at id 1 |
| `PokemonGallery.Gallery.Previous` | src/PokemonGallery.tsx:126-128 | when disabled (page 0) the page stays 0, otherwise it drops by exactly one; the page never goes negative |
| `PokemonGallery.Gallery.Next` | src/PokemonGallery.tsx:133-134 | the page rises by exactly one with no upper bound, so startId moves on by ten |
| `PokemonGallery.Gallery.Render` | src/PokemonGallery.tsx:6-7 | the hook is rendered with (page*10+1, 10) and starts a batch exactly when those differ from the last render |
| `PokemonGallery.Gallery.BeginAbilityClick` | src/PokemonGallery.tsx:22-34 | the state becomes BeginClick of the old one, the ability URL is fetched exactly when the clicked ability is not the active one, and that fetch is recorded as in flight |
| `PokemonGallery.Gallery.SettleAbilityClick` | src/PokemonGallery.tsx:34-43 | for a fetch in flight, the state becomes SettleClick of the old one and the fetch is no longer in flight |
| `PokemonGallery.Gallery.HandleAbilityClick` | src/PokemonGallery.tsx:17-44 | BeginAbilityClick then, if it fetched, SettleAbilityClick: the state becomes Click of the old one, the URL is fetched exactly when the clicked ability is not the active one, and no fetch is left in flight |
| `PokemonGallery.Gallery.CloseTooltip` | src/PokemonGallery.tsx:65 | only the active ability is cleared |
| `PokemonGallery.Gallery.TooltipShown` | src/PokemonGallery.tsx:55 | the tooltip renders exactly when the active ability is set and non-empty |
| `PokemonGallery.Gallery.TooltipStyle` | src/PokemonGallery.tsx:58-61 | top = y + scrollY + 8 and left = x - 128 |

## Left out

- The JSX markup, the card layout and the styling are not modelled. The tooltip's width (256px, from `w-64`) and its 8px gap are kept as constants.
- `fetch`, `res.json()` and the PokeAPI are network I/O. Their results are inputs: a `Response` per requested id, and an `AbilityFetch` per ability click. The response body is not validated at runtime, so an `Ok` record is taken as given.
- A failing ability fetch is one outcome, `LoadFailed`. It covers a rejected request, a body that is not JSON, a missing `effect_entries`, and an entry without a `language` that `find` reaches before the first English entry. All of these throw inside the `try`. `find` never reads the entries after the first English one, so those are part of a `Loaded` outcome whatever they hold.
- The ability fetch never checks `res.ok`. An error response whose body still parses with `effect_entries` arrives as `Loaded`, like any other parsed body.
- A missing `short_effect` is modelled as the empty string. Both fall back to "No effect found.".
- React's render and effect scheduling is not modelled. A render is an explicit call, `Gallery.Render` / `ListState.Render`, and a batch is started and settled by explicit calls.
- Overlapping batches are not modelled. When the page changes quickly, a slower, superseded batch can still overwrite newer state; that depends on event-loop timing.
- A settle event for an ability with no fetch in flight cannot happen in the component. The event model `Step` ignores it.
- Which failing request `Promise.all` reports depends on completion times. `ListState.SettleBatch` picks any failed index nondeterministically, and its contract allows every one.
- `getBoundingClientRect`, `window.scrollY` and `e.stopPropagation()` are browser APIs. The box and the scroll offset are parameters, and stopping propagation has no state to model.
- Positions are exact `real`s. JavaScript floating-point rounding is not modelled.
- Ids and pages are unbounded integers. Loss of precision above 2^53 is not modelled.
- Decimal.NatToString writes every id in plain digits. JavaScript switches to exponent notation from 10^21 on.
- `expandedAbility` (src/PokemonGallery.tsx:8, 110-118) is never set after it starts as null, so its block never renders. The model omits it.
